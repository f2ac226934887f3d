/**
 * The settings screen (src/settings.rs): its own copy of the resolution
 * table, the Settings resource, and the dropdown that selects a resolution.
 *
 * This table is not the one the luge run reads: the run reads the table of
 * module Game. The two agree on size and label but not on scale or lanes.
 */
module Settings {
  import Game
  import Wrappers

  datatype Resolution = Sd | Hd | Qhd | Uhd

  const Resolutions: seq<Resolution> := [Sd, Hd, Qhd, Uhd]

  /** The variant of the crate-level enum with the same name. */
  function ToGame(r: Resolution): Game.Resolution
  {
    match r
    case Sd => Game.Sd
    case Hd => Game.Hd
    case Qhd => Game.Qhd
    case Uhd => Game.Uhd
  }

  function Size(r: Resolution): (v: Game.Vec2)
    ensures v.y == 360.0 * Game.Scale(ToGame(r))
    ensures 9.0 * v.x == 16.0 * v.y
  {
    match r
    case Sd => Game.Vec2(1280.0, 720.0)
    case Hd => Game.Vec2(1920.0, 1080.0)
    case Qhd => Game.Vec2(2560.0, 1440.0)
    case Uhd => Game.Vec2(3840.0, 2160.0)
  }

  function Label(r: Resolution): string
  {
    match r
    case Sd => "720p"
    case Hd => "1080p"
    case Qhd => "1440p"
    case Uhd => "4k"
  }

  /** This table's scale: 5 at 4k, where the crate-level table has 6. */
  function Scale(r: Resolution): (s: real)
    ensures s in {2.0, 3.0, 4.0, 5.0}
    ensures r != Uhd ==> s == Game.Scale(ToGame(r))
    ensures r == Uhd ==> s == 5.0 < Game.Scale(ToGame(r))
  {
    match r
    case Sd => 2.0
    case Hd => 3.0
    case Qhd => 4.0
    case Uhd => 5.0
  }

  /** The lane offsets written out per variant; each is 66 pixels per unit of this table's scale. */
  function CalculateLanes(r: Resolution): (lanes: (real, real))
    ensures lanes.0 == -lanes.1
    ensures lanes.1 == 66.0 * Scale(r)
  {
    match r
    case Sd => (-132.0, 132.0)
    case Hd => (-198.0, 198.0)
    case Qhd => (-264.0, 264.0)
    case Uhd => (-330.0, 330.0)
  }

  lemma ScaleIncreasesAlongTable(i: nat, j: nat)
    requires i < j < |Resolutions|
    ensures 0.0 < Scale(Resolutions[i]) < Scale(Resolutions[j])
  {
  }

  /** Size and label agree with the crate-level table for every variant. */
  lemma SizeAndLabelAgreeWithGame(r: Resolution)
    ensures Size(r) == Game.Size(ToGame(r))
    ensures Label(r) == Game.Label(ToGame(r))
  {
  }

  /**
   * The lanes disagree with the crate-level table for every variant, and the
   * scale disagrees exactly at 4k.
   */
  lemma LanesDisagreeWithGame(r: Resolution)
    ensures CalculateLanes(r) != Game.CalculateLanes(ToGame(r))
    ensures Scale(r) == Game.Scale(ToGame(r)) <==> r != Uhd
    ensures r == Hd ==> CalculateLanes(r).1 == 198.0 && Game.CalculateLanes(ToGame(r)).1 == 183.0
  {
  }

  /** The display mode of a UI node. */
  datatype Display = Flex | Block | Grid | None

  /** The interaction state of a button. */
  datatype Interaction = Pressed | Hovered | Idle

  /** What one press on the dropdown head does to the panel. */
  function Toggled(d: Display): (r: Display)
    ensures r in {Flex, None}
    ensures r == Flex <==> d == None
  {
    match d
    case None => Flex
    case _ => None
  }

  /** The panel after a batch of head interactions, one toggle per press. */
  function AfterHeadInteractions(d: Display, interactions: seq<Interaction>): Display
  {
    if interactions == [] then d
    else
      var before := AfterHeadInteractions(d, interactions[..|interactions| - 1]);
      if interactions[|interactions| - 1] == Pressed then Toggled(before) else before
  }

  /** The number of presses in a batch of interactions. */
  function Presses(interactions: seq<Interaction>): nat
  {
    if interactions == [] then 0
    else Presses(interactions[..|interactions| - 1]) + (if interactions[|interactions| - 1] == Pressed then 1 else 0)
  }

  /**
   * Toggling opens a hidden panel and hides an open one; so after a batch the
   * panel is open exactly when it started hidden and saw an odd number of
   * presses, or started open and saw an even, non-zero number.
   */
  lemma {:induction false} HeadInteractionsParity(d: Display, interactions: seq<Interaction>)
    requires d in {Flex, None}
    ensures AfterHeadInteractions(d, interactions) in {Flex, None}
    ensures AfterHeadInteractions(d, interactions) == Flex <==>
              (if Presses(interactions) % 2 == 0 then d == Flex else d == None)
  {
    if interactions != [] {
      HeadInteractionsParity(d, interactions[..|interactions| - 1]);
    }
  }

  /** No choice after position i was pressed. */
  ghost predicate NonePressedAfter(choices: seq<(Interaction, Resolution)>, i: int)
  {
    forall j :: 0 <= j < |choices| && i < j ==> choices[j].0 != Pressed
  }

  /** The choice of the last press in a batch of dropdown-choice interactions. */
  function LastPressed(choices: seq<(Interaction, Resolution)>): (r: Wrappers.Option<Resolution>)
    ensures r.None? <==> NonePressedAfter(choices, -1)
    ensures r.Some? ==> exists i :: 0 <= i < |choices| && choices[i] == (Pressed, r.value) && NonePressedAfter(choices, i)
  {
    if choices == [] then Wrappers.None
    else if choices[|choices| - 1].0 == Pressed then Wrappers.Some(choices[|choices| - 1].1)
    else
      var init := choices[..|choices| - 1];
      assert forall i :: 0 <= i < |init| ==> init[i] == choices[i];
      assert forall i :: -1 <= i < |init| ==> (NonePressedAfter(init, i) <==> NonePressedAfter(choices, i));
      LastPressed(init)
  }

  /**
   * The Settings resource together with the widgets and the window that the
   * settings screen writes: the dropdown panel's display, the dropdown
   * label's text and the window size.
   */
  class SettingsScreen {
    var resolution: Resolution
    var panel: Display
    var labelText: string
    var window: Game.Vec2

    /** The default settings (1080p), the window sized at startup, and the menu as it is spawned. */
    constructor ()
      ensures resolution == Hd && window == Size(Hd)
      ensures panel == None && labelText == Label(Hd)
    {
      resolution := Hd;
      window := Size(Hd);
      panel := None;
      labelText := Label(Hd);
    }

    /** Every pressed head interaction toggles the panel. */
    method ToggleDropdown(interactions: seq<Interaction>)
      modifies this`panel
      ensures panel == AfterHeadInteractions(old(panel), interactions)
    {
      var i := 0;
      while i < |interactions|
        invariant 0 <= i <= |interactions|
        invariant panel == AfterHeadInteractions(old(panel), interactions[..i])
      {
        assert interactions[..i + 1][..i] == interactions[..i];
        if interactions[i] == Pressed {
          panel := match panel
            case None => Flex
            case _ => None;
        }
        i := i + 1;
      }
      assert interactions[..i] == interactions;
    }

    /**
     * Every pressed choice selects its resolution, resizes the window, relabels
     * the dropdown and hides the panel; the last press wins.
     */
    method SelectOption(choices: seq<(Interaction, Resolution)>)
      modifies this`resolution, this`window, this`labelText, this`panel
      ensures LastPressed(choices).None? ==>
                resolution == old(resolution) && window == old(window) &&
                labelText == old(labelText) && panel == old(panel)
      ensures LastPressed(choices).Some? ==>
                var r := LastPressed(choices).value;
                resolution == r && window == Size(r) && labelText == Label(r) && panel == None
    {
      var i := 0;
      while i < |choices|
        invariant 0 <= i <= |choices|
        invariant LastPressed(choices[..i]).None? ==>
                    resolution == old(resolution) && window == old(window) &&
                    labelText == old(labelText) && panel == old(panel)
        invariant LastPressed(choices[..i]).Some? ==>
                    var r := LastPressed(choices[..i]).value;
                    resolution == r && window == Size(r) && labelText == Label(r) && panel == None
      {
        assert choices[..i + 1][..i] == choices[..i];
        var (interaction, choice) := choices[i];
        if interaction == Pressed {
          resolution := choice;
          window := Size(choice);
          labelText := Label(choice);
          panel := None;
        }
        i := i + 1;
      }
      assert choices[..i] == choices;
    }
  }
}
