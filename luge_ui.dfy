/**
 * The text and visibility the luge screen derives from the run (src/luge/ui.rs):
 * the dialogue text's initial value, the launch button and continue hint,
 * the coin counter, the run timer and the stat readout.
 */
module LugeUi {
  import Dialogue
  import opened Wrappers

  /** The visibility of a UI node. */
  datatype Visibility = Inherited | Hidden | Visible

  predicate IsDigit(c: char)
  {
    '0' <= c <= '9'
  }

  predicate AllDigits(s: string)
  {
    forall i :: 0 <= i < |s| ==> IsDigit(s[i])
  }

  function DigitChar(d: nat): (c: char)
    requires d < 10
    ensures IsDigit(c)
  {
    "0123456789"[d]
  }

  function DigitValue(c: char): (d: nat)
    requires IsDigit(c)
    ensures d < 10
  {
    (c as int - '0' as int) as nat
  }

  lemma DigitRoundTrip(d: nat)
    requires d < 10
    ensures DigitValue(DigitChar(d)) == d
  {
  }

  /** The number a string of decimal digits denotes. */
  function ParseNat(s: string): nat
    requires AllDigits(s)
  {
    if s == [] then 0 else ParseNat(s[..|s| - 1]) * 10 + DigitValue(s[|s| - 1])
  }

  /** The decimal rendering of a number: at least one digit, no leading zero, and it reads back as the number. */
  function NatToString(n: nat): (s: string)
    ensures |s| >= 1 && AllDigits(s)
    ensures ParseNat(s) == n
    ensures s[0] == '0' ==> s == "0"
  {
    if n < 10 then
      DigitRoundTrip(n);
      [DigitChar(n)]
    else
      var init, last := NatToString(n / 10), DigitChar(n % 10);
      DigitRoundTrip(n % 10);
      assert (init + [last])[..|init|] == init;
      init + [last]
  }

  /** Distinct numbers render differently. */
  lemma NatToStringInjective(a: nat, b: nat)
    ensures NatToString(a) == NatToString(b) <==> a == b
  {
  }

  /** The coin counter's text. */
  function CoinText(coins: nat): (t: string)
    ensures |t| > 7 && t[..7] == "Coins: " && AllDigits(t[7..]) && ParseNat(t[7..]) == coins
    ensures t[7..] == NatToString(coins)
  {
    assert ("Coins: " + NatToString(coins))[7..] == NatToString(coins);
    "Coins: " + NatToString(coins)
  }

  /** The counter's spawned text is the rendering of a zero total, and each total has its own text. */
  lemma CoinTextFacts(a: nat, b: nat)
    ensures CoinText(0) == "Coins: 0"
    ensures CoinText(a) == CoinText(b) <==> a == b
  {
    if CoinText(a) == CoinText(b) {
      assert CoinText(a)[7..] == CoinText(b)[7..];
    }
  }

  /** A number rendered with at least two digits, zero-padded on the left. */
  function TwoDigits(n: nat): (s: string)
    ensures |s| >= 2 && AllDigits(s) && ParseNat(s) == n
    ensures n >= 10 ==> s == NatToString(n)
    ensures n < 10 ==> |s| == 2 && s[0] == '0' && s[1..] == NatToString(n)
  {
    if n < 10 then
      var s := "0" + NatToString(n);
      assert s[..1] == "0";
      s
    else NatToString(n)
  }

  /** A timer reading: whole minutes, and the seconds within the minute. */
  datatype ClockReading = ClockReading(minutes: nat, seconds: real)

  /** Elapsed seconds split into whole minutes and the remaining seconds. */
  function ReadClock(elapsed: real): (c: ClockReading)
    requires elapsed >= 0.0
    ensures 60.0 * c.minutes as real + c.seconds == elapsed
    ensures 0.0 <= c.seconds < 60.0
  {
    var m := (elapsed / 60.0).Floor;
    ClockReading(m as nat, elapsed - 60.0 * m as real)
  }

  /** The split is the only one with seconds in [0, 60). */
  lemma ReadClockUnique(elapsed: real, c: ClockReading)
    requires elapsed >= 0.0
    requires 60.0 * c.minutes as real + c.seconds == elapsed && 0.0 <= c.seconds < 60.0
    ensures c == ReadClock(elapsed)
  {
    var r := ReadClock(elapsed);
    assert c.minutes < r.minutes + 1 && r.minutes < c.minutes + 1;
  }

  /** The run timer's text: zero-padded minutes, and the seconds field as a number. */
  datatype TimerText = TimerText(minutes: string, seconds: real)

  /** The timer text for an elapsed time. */
  function RunTimerText(elapsed: real): (t: TimerText)
    requires elapsed >= 0.0
    ensures |t.minutes| >= 2 && AllDigits(t.minutes)
    ensures t.minutes == TwoDigits(ReadClock(elapsed).minutes)
    ensures 60.0 * ParseNat(t.minutes) as real + t.seconds == elapsed && 0.0 <= t.seconds < 60.0
  {
    var c := ReadClock(elapsed);
    TimerText(TwoDigits(c.minutes), c.seconds)
  }

  /** The timer's spawned text, 00:00.00, is the text of a zero elapsed time. */
  lemma InitialTimerText()
    ensures RunTimerText(0.0) == TimerText("00", 0.0)
  {
    assert ReadClock(0.0) == ClockReading(0, 0.0);
  }

  const StatLabels: seq<string> := ["ATK: ", "DEF: ", "SPD: ", "LCK: "]

  /** The stat readout lines, in order: attack, defence, speed, luck. */
  function StatReadout(attack: nat, defence: nat, speed: nat, luck: nat): (lines: seq<string>)
    ensures |lines| == 4
    ensures forall i :: 0 <= i < 4 ==>
              |lines[i]| > 5 && lines[i][..5] == StatLabels[i] && AllDigits(lines[i][5..]) &&
              ParseNat(lines[i][5..]) == [attack, defence, speed, luck][i] &&
              lines[i][5..] == NatToString([attack, defence, speed, luck][i])
  {
    var values := [attack, defence, speed, luck];
    var lines := seq(4, i requires 0 <= i < 4 => StatLabels[i] + NatToString(values[i]));
    assert forall i :: 0 <= i < 4 ==> lines[i][5..] == NatToString(values[i]);
    lines
  }

  /** The dialogue text as the screen is built: the current line, or nothing. */
  function InitialText(scenes: seq<Dialogue.Scene>, state: Dialogue.DialogueState): (t: string)
    ensures Dialogue.GetLine(scenes, state.currentScene, state.lineIndex) == Some(t) ||
            (Dialogue.GetLine(scenes, state.currentScene, state.lineIndex) == None && t == "")
  {
    match Dialogue.GetLine(scenes, state.currentScene, state.lineIndex)
    case Some(line) => line
    case None => ""
  }

  /**
   * Built from the shipped script and the default state, the screen shows the
   * first intro line, and the sequencer starts consistent.
   */
  lemma InitialTextOpensScript()
    ensures InitialText(Dialogue.Script(), Dialogue.DefaultState) == Dialogue.Line1
    ensures Dialogue.Snapshot(Dialogue.DefaultState, Dialogue.Script(), InitialText(Dialogue.Script(), Dialogue.DefaultState)) == Dialogue.Opening()
    ensures Dialogue.Consistent(Dialogue.Opening())
  {
    assert Dialogue.IsFirst(Dialogue.Script(), Dialogue.Intro, 0);
  }

  /** Fills the dialogue text widget as the screen is spawned. */
  method SpawnDialogueText(dialogue: Dialogue.Sequencer)
    modifies dialogue`text
    ensures dialogue.text == InitialText(dialogue.scenes, Dialogue.DialogueState(dialogue.currentScene, dialogue.lineIndex, dialogue.waiting))
  {
    var line := Dialogue.GetLine(dialogue.scenes, dialogue.currentScene, dialogue.lineIndex);
    dialogue.text := if line.Some? then line.value else "";
  }

  /** The widgets the luge screen updates: the launch button, the continue hint, the timer texts and the coin texts. */
  class Hud {
    var launchButton: Visibility
    var hint: Visibility
    var timerTexts: seq<TimerText>
    var coinTexts: seq<string>

    /** The widgets as they are spawned: a hidden button, a hint that inherits, 00:00.00 and Coins: 0. */
    constructor ()
      ensures launchButton == Hidden && hint == Inherited
      ensures timerTexts == [TimerText("00", 0.0)] && coinTexts == ["Coins: 0"]
    {
      launchButton, hint := Hidden, Inherited;
      timerTexts := [TimerText("00", 0.0)];
      coinTexts := ["Coins: 0"];
    }

    /** While dialogue waits, the hint shows and the launch button hides; afterwards the reverse. */
    method ToggleLaunchButton(waiting: bool)
      modifies this`launchButton, this`hint
      ensures launchButton == Visible <==> !waiting
      ensures hint == Visible <==> waiting
      ensures launchButton in {Hidden, Visible} && hint in {Hidden, Visible} && launchButton != hint
    {
      if waiting {
        launchButton := Hidden;
        hint := Visible;
      } else {
        launchButton := Visible;
        hint := Hidden;
      }
    }

    /** Every timer text shows the elapsed time. */
    method UpdateRunTimerText(elapsed: real)
      requires elapsed >= 0.0
      modifies this`timerTexts
      ensures |timerTexts| == |old(timerTexts)|
      ensures forall i :: 0 <= i < |timerTexts| ==> timerTexts[i] == RunTimerText(elapsed)
    {
      var minutes := (elapsed / 60.0).Floor;
      var seconds := elapsed - 60.0 * minutes as real;
      var i := 0;
      while i < |timerTexts|
        invariant 0 <= i <= |timerTexts| == |old(timerTexts)|
        invariant forall k :: 0 <= k < i ==> timerTexts[k] == RunTimerText(elapsed)
      {
        timerTexts := timerTexts[i := TimerText(TwoDigits(minutes as nat), seconds)];
        i := i + 1;
      }
    }

    /** When the coin total changed, every coin text shows it; otherwise they stay. */
    method UpdateCoinCountText(playerCoins: nat, coinsChanged: bool)
      modifies this`coinTexts
      ensures !coinsChanged ==> coinTexts == old(coinTexts)
      ensures coinsChanged ==> |coinTexts| == |old(coinTexts)| &&
                               forall i :: 0 <= i < |coinTexts| ==> coinTexts[i] == CoinText(playerCoins)
    {
      if coinsChanged {
        var i := 0;
        while i < |coinTexts|
          invariant 0 <= i <= |coinTexts| == |old(coinTexts)|
          invariant forall k :: 0 <= k < i ==> coinTexts[k] == CoinText(playerCoins)
        {
          coinTexts := coinTexts[i := "Coins: " + NatToString(playerCoins)];
          i := i + 1;
        }
      }
    }
  }
}
