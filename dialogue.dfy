/**
 * The dialogue sequencer of the loadout phase (src/luge/dialogue.rs): a
 * script of scenes, each a list of lines, played forward one line per
 * Continue press, scene after scene, until the script is exhausted.
 */
module Dialogue {
  import opened Wrappers

  datatype SceneId = Intro | Shop

  /** The scene that follows a scene; the shop is the last. */
  function Next(id: SceneId): (r: Option<SceneId>)
    ensures r == Some(Shop) <==> id == Intro
    ensures r == None <==> id == Shop
  {
    match id
    case Intro => Some(Shop)
    case Shop => None
  }

  /** A scene of the script, with the flag set once its lines are exhausted. */
  datatype Scene = Scene(id: SceneId, lines: seq<string>, completed: bool)

  const Line1: string := "Heya chump--errr, champ. Heh heh. Welcome ta Slick Rick's Luge Lounge. Da numbah one luge lounge in da lesser tri-state region."
  const Line2: string := "Take a seat. Bob a sled. Spend some moolah. Su money es mi money, amigo. Capice?"
  const Line3: string := "See dem stats der on da right? You can raise em by spendin Slick Coins, see?"
  const Line4: string := "Oh, ya ain't got none? No problemo, sonny. Just head on down da luge. You'll find plenty along da way."
  const Line5: string := "Just watch out for.... erm... OBSTACLES let's say. Roadblocks, if you will. Especially da ones wit da claws..."

  /** The script the game ships: five intro lines and a shop scene with none yet. */
  function Script(): seq<Scene>
  {
    [Scene(Intro, [Line1, Line2, Line3, Line4, Line5], false), Scene(Shop, [], false)]
  }

  /** Scene k is the first scene with the given id. */
  ghost predicate IsFirst(scenes: seq<Scene>, id: SceneId, k: int)
  {
    0 <= k < |scenes| && scenes[k].id == id && forall j :: 0 <= j < k ==> scenes[j].id != id
  }

  /** The position of the first scene with the given id, if any. */
  function FindScene(scenes: seq<Scene>, id: SceneId): (r: Option<nat>)
    ensures r.Some? ==> IsFirst(scenes, id, r.value)
    ensures r.None? <==> forall k :: 0 <= k < |scenes| ==> scenes[k].id != id
  {
    if scenes == [] then None
    else if scenes[0].id == id then Some(0)
    else match FindScene(scenes[1..], id)
      case None => None
      case Some(k) => Some(k + 1)
  }

  /** The first scene with the given id, if any. */
  function GetScene(scenes: seq<Scene>, id: SceneId): (r: Option<Scene>)
    ensures r.Some? <==> exists k :: IsFirst(scenes, id, k)
    ensures forall k :: IsFirst(scenes, id, k) ==> r == Some(scenes[k])
  {
    match FindScene(scenes, id)
    case None => None
    case Some(k) =>
      FirstIsUnique(scenes, id, k);
      Some(scenes[k])
  }

  lemma FirstIsUnique(scenes: seq<Scene>, id: SceneId, k: nat)
    requires IsFirst(scenes, id, k)
    ensures forall j :: IsFirst(scenes, id, j) ==> j == k
  {
  }

  /** Line index of the first scene with the given id, if both exist. */
  function GetLine(scenes: seq<Scene>, id: SceneId, index: nat): (r: Option<string>)
    ensures forall k :: IsFirst(scenes, id, k) ==>
              r == if index < |scenes[k].lines| then Some(scenes[k].lines[index]) else None
    ensures (forall k :: 0 <= k < |scenes| ==> scenes[k].id != id) ==> r == None
  {
    match GetScene(scenes, id)
    case None => None
    case Some(scene) => if index < |scene.lines| then Some(scene.lines[index]) else None
  }

  /** The first scene with the given id marked completed; nothing else changes. */
  function MarkCompleted(scenes: seq<Scene>, id: SceneId): (r: seq<Scene>)
    ensures SameScript(scenes, r)
    ensures forall k :: 0 <= k < |r| ==> r[k].completed == (scenes[k].completed || IsFirst(scenes, id, k))
  {
    match FindScene(scenes, id)
    case None => scenes
    case Some(k) =>
      FirstIsUnique(scenes, id, k);
      scenes[k := scenes[k].(completed := true)]
  }

  /** Two scene lists with the same scenes and lines, whatever their completed flags. */
  ghost predicate SameScript(a: seq<Scene>, b: seq<Scene>)
  {
    |a| == |b| && forall k :: 0 <= k < |a| ==> a[k].id == b[k].id && a[k].lines == b[k].lines
  }

  /** Lookups do not depend on the completed flags. */
  lemma GetLineIgnoresCompleted(a: seq<Scene>, b: seq<Scene>, id: SceneId, index: nat)
    requires SameScript(a, b)
    ensures GetLine(a, id, index) == GetLine(b, id, index)
  {
    match FindScene(a, id)
    case None =>
    case Some(k) =>
      assert IsFirst(b, id, k);
  }

  /** Where the sequencer is in the script. */
  datatype DialogueState = DialogueState(currentScene: SceneId, lineIndex: nat, waiting: bool)

  /** Dialogue starts at the first intro line, waiting for a press. */
  const DefaultState: DialogueState := DialogueState(Intro, 0, true)

  /** The sequencer's whole state: its position, the script with its flags, and the displayed text. */
  datatype Snapshot = Snapshot(state: DialogueState, scenes: seq<Scene>, text: string)

  /** One frame of the sequencer, given whether Continue was just pressed. */
  function Advance(w: Snapshot, continuePressed: bool): Snapshot
  {
    if !w.state.waiting || !continuePressed then w
    else
      var cur := w.state.currentScene;
      var index := w.state.lineIndex + 1;
      match GetLine(w.scenes, cur, index)
      case Some(line) => Snapshot(w.state.(lineIndex := index), w.scenes, line)
      case None =>
        var scenes := MarkCompleted(w.scenes, cur);
        match Next(cur)
        case None => Snapshot(DialogueState(cur, index, false), scenes, "")
        case Some(next) =>
          match GetLine(scenes, next, 0)
          case Some(line) => Snapshot(DialogueState(next, 0, true), scenes, line)
          case None => Snapshot(DialogueState(next, 0, false), MarkCompleted(scenes, next), "")
  }

  /** While waiting the text is the current line, which exists; once finished the text is empty. */
  ghost predicate Consistent(w: Snapshot)
  {
    if w.state.waiting then GetLine(w.scenes, w.state.currentScene, w.state.lineIndex) == Some(w.text)
    else w.text == ""
  }

  /** Without a press, or once finished, nothing changes. */
  lemma AdvanceIdle(w: Snapshot, continuePressed: bool)
    requires !w.state.waiting || !continuePressed
    ensures Advance(w, continuePressed) == w
  {
  }

  /** A press with a further line in the scene shows that line and stays in the scene. */
  lemma AdvanceShowsNextLine(w: Snapshot)
    requires w.state.waiting
    requires GetLine(w.scenes, w.state.currentScene, w.state.lineIndex + 1).Some?
    ensures Advance(w, true).state == w.state.(lineIndex := w.state.lineIndex + 1)
    ensures Some(Advance(w, true).text) == GetLine(w.scenes, w.state.currentScene, w.state.lineIndex + 1)
    ensures Advance(w, true).scenes == w.scenes
  {
  }

  /**
   * A press past the scene's last line completes the scene and moves to the
   * next scene's first line; where there is no next scene, or it has no
   * lines, dialogue finishes with the text cleared and every scene it passed
   * completed.
   */
  lemma AdvanceFinishesScene(w: Snapshot, k: nat)
    requires w.state.waiting
    requires GetLine(w.scenes, w.state.currentScene, w.state.lineIndex + 1).None?
    requires IsFirst(w.scenes, w.state.currentScene, k)
    ensures Advance(w, true).scenes[k].completed
    ensures Advance(w, true).state.waiting ==>
              Some(Advance(w, true).state.currentScene) == Next(w.state.currentScene) &&
              Advance(w, true).state.lineIndex == 0 &&
              GetLine(w.scenes, Advance(w, true).state.currentScene, 0) == Some(Advance(w, true).text)
    ensures !Advance(w, true).state.waiting ==>
              Advance(w, true).text == "" &&
              forall n :: Next(w.state.currentScene) == Some(n) ==>
                Advance(w, true).state == DialogueState(n, 0, false) &&
                forall j :: IsFirst(w.scenes, n, j) ==> Advance(w, true).scenes[j].completed
  {
    var cur := w.state.currentScene;
    var scenes := MarkCompleted(w.scenes, cur);
    match Next(cur)
    case None =>
    case Some(next) =>
      GetLineIgnoresCompleted(w.scenes, scenes, next, 0);
      forall j | IsFirst(w.scenes, next, j)
        ensures IsFirst(scenes, next, j)
      {
      }
  }

  /** The sequencer keeps its text consistent with its position. */
  lemma AdvancePreservesConsistent(w: Snapshot, continuePressed: bool)
    requires Consistent(w)
    ensures Consistent(Advance(w, continuePressed))
  {
    if w.state.waiting && continuePressed {
      var cur := w.state.currentScene;
      var index := w.state.lineIndex + 1;
      if GetLine(w.scenes, cur, index).None? {
        var scenes := MarkCompleted(w.scenes, cur);
        if Next(cur).Some? {
          var next := Next(cur).value;
          if GetLine(scenes, next, 0).Some? {
            assert Advance(w, continuePressed) == Snapshot(DialogueState(next, 0, true), scenes, GetLine(scenes, next, 0).value);
          }
        }
      }
    }
  }

  /**
   * Completed flags are only ever set, never cleared, and the scenes and
   * their lines never change.
   */
  lemma AdvanceOnlyCompletes(w: Snapshot, continuePressed: bool)
    ensures SameScript(w.scenes, Advance(w, continuePressed).scenes)
    ensures forall k :: 0 <= k < |w.scenes| && w.scenes[k].completed ==> Advance(w, continuePressed).scenes[k].completed
  {
  }

  /** How far through the script a state is: the scene's position, then the line. */
  function SceneRank(id: SceneId): nat
  {
    match id
    case Intro => 0
    case Shop => 1
  }

  /** The sequencer never moves back: a processed press goes to a later line or scene, or finishes. */
  lemma AdvanceForwardOnly(w: Snapshot, continuePressed: bool)
    requires w.state.waiting && continuePressed
    ensures var r := Advance(w, continuePressed).state;
            !r.waiting ||
            SceneRank(r.currentScene) > SceneRank(w.state.currentScene) ||
            (r.currentScene == w.state.currentScene && r.lineIndex > w.state.lineIndex)
  {
  }

  /** The sequencer after a number of frames that each saw a Continue press. */
  function Presses(w: Snapshot, n: nat): Snapshot
  {
    if n == 0 then w else Advance(Presses(w, n - 1), true)
  }

  /** The shipped script as the loadout begins: its first line on display. */
  function Opening(): Snapshot
  {
    Snapshot(DefaultState, Script(), Script()[0].lines[0])
  }

  /**
   * With the shipped script, presses 1 to 4 show intro lines 2 to 5; the
   * fifth press finishes the dialogue with both scenes completed and the text
   * cleared; any further press changes nothing.
   */
  lemma {:induction false} ShippedScriptPlaysOut(n: nat)
    ensures n < 5 ==> Presses(Opening(), n).state == DialogueState(Intro, n, true) &&
                      Presses(Opening(), n).text == Script()[0].lines[n]
    ensures n >= 5 ==> Presses(Opening(), n).state == DialogueState(Shop, 0, false) &&
                       Presses(Opening(), n).text == "" &&
                       Presses(Opening(), n).scenes == [Script()[0].(completed := true), Script()[1].(completed := true)]
  {
    if n < 5 {
      IntroPlays(n);
    } else if n == 5 {
      FifthPressFinishes();
    } else {
      ShippedScriptPlaysOut(n - 1);
      AdvanceIdle(Presses(Opening(), n - 1), true);
    }
  }

  /** Before the fifth press the script's flags are untouched and the intro line matching the press count is shown. */
  lemma {:induction false} IntroPlays(n: nat)
    requires n < 5
    ensures Presses(Opening(), n) == Snapshot(DialogueState(Intro, n, true), Script(), Script()[0].lines[n])
  {
    if n > 0 {
      IntroPlays(n - 1);
      var s := Script();
      assert IsFirst(s, Intro, 0);
      assert GetLine(s, Intro, n) == Some(s[0].lines[n]);
    }
  }

  /** The fifth press runs past the last intro line into the empty shop scene and finishes. */
  lemma FifthPressFinishes()
    ensures Presses(Opening(), 5) ==
            Snapshot(DialogueState(Shop, 0, false), [Script()[0].(completed := true), Script()[1].(completed := true)], "")
  {
    IntroPlays(4);
    LastIntroLinePressed(Presses(Opening(), 4));
  }

  /** A press on the last intro line of the untouched script completes both scenes. */
  lemma LastIntroLinePressed(w: Snapshot)
    requires w == Snapshot(DialogueState(Intro, 4, true), Script(), Script()[0].lines[4])
    ensures Advance(w, true) ==
            Snapshot(DialogueState(Shop, 0, false), [Script()[0].(completed := true), Script()[1].(completed := true)], "")
  {
    var s := Script();
    assert IsFirst(s, Intro, 0);
    assert GetLine(s, Intro, 5) == None;
    var marked := MarkCompleted(s, Intro);
    assert marked == [s[0].(completed := true), s[1]];
    assert IsFirst(marked, Shop, 1);
    assert GetLine(marked, Shop, 0) == None;
    assert MarkCompleted(marked, Shop) == [s[0].(completed := true), s[1].(completed := true)];
  }

  /** The dialogue resource, the script resource and the dialogue text widget. */
  class Sequencer {
    var currentScene: SceneId
    var lineIndex: nat
    var waiting: bool
    var scenes: seq<Scene>
    var text: string

    function Snap(): Snapshot
      reads this
    {
      Snapshot(DialogueState(currentScene, lineIndex, waiting), scenes, text)
    }

    /** The default dialogue state and the shipped script, before the text widget is filled. */
    constructor ()
      ensures Snap() == Snapshot(DefaultState, Script(), "")
    {
      currentScene, lineIndex, waiting := Intro, 0, true;
      scenes := Script();
      text := "";
    }

    /** One frame of dialogue: a press advances a line, or a scene, or finishes. */
    method AdvanceDialogue(continueJustPressed: bool)
      modifies this
      ensures Snap() == Advance(old(Snap()), continueJustPressed)
    {
      if !waiting || !continueJustPressed {
        return;
      }
      var cur, index, sc, shown := currentScene, lineIndex + 1, scenes, text;
      var stillWaiting := true;
      var line := GetLine(sc, cur, index);
      if line.Some? {
        shown := line.value;
      } else {
        // the scene is exhausted: complete it and move on, or finish
        sc := MarkCompleted(sc, cur);
        var next := Next(cur);
        var started := false;
        if next.Some? {
          cur, index := next.value, 0;
          var first := GetLine(sc, cur, 0);
          if first.Some? {
            shown, started := first.value, true;
          } else {
            sc := MarkCompleted(sc, cur);
          }
        }
        if !started {
          stillWaiting, shown := false, "";
        }
      }
      currentScene, lineIndex, waiting, scenes, text := cur, index, stillWaiting, sc, shown;
    }
  }
}
