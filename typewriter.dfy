/** `useTypewriter`: reveals a text one UTF-16 code unit per interval tick. */
module TypewriterHook {

  /** One UTF-16 code unit: what a JavaScript string's `length` counts and
      `slice` cuts at. A character outside the Basic Multilingual Plane takes
      two, so the reveal can show half of it for one tick. */
  newtype CodeUnit = x: int | 0 <= x < 0x1_0000

  class Typewriter {
    /** The text being revealed (the hook's argument). */
    var text: seq<CodeUnit>
    /** The effect's tick counter `i`. */
    var i: nat
    /** The revealed part of `text`. */
    var displayed: seq<CodeUnit>
    /** Whether the interval is still set (not yet cleared). */
    var running: bool

    /** What holds between ticks: `displayed` is the first `i` code units of
        `text`, and the interval runs exactly until the whole text is shown. */
    ghost predicate Valid()
      reads this
    {
      i <= |text| && displayed == text[..i] && (running <==> i < |text|)
    }

    /** The hook mounts with `displayed = ""` and then runs its effect on `text`. */
    constructor (text: seq<CodeUnit>)
      ensures Valid()
      ensures this.text == text && i == 0 && displayed == [] && running == (text != [])
    {
      this.text := text;
      i := 0;
      displayed := [];
      running := text != [];
    }

    /** The effect re-run for a new text: the previous interval is cleared;
        an empty text shows nothing; any other text restarts from nothing. */
    method SetText(newText: seq<CodeUnit>)
      modifies this
      ensures Valid()
      ensures text == newText && i == 0 && displayed == [] && running == (newText != [])
    {
      running := false;
      text := newText;
      if newText == [] {
        displayed := [];
        i := 0;
        return;
      }
      i := 0;
      displayed := [];
      running := true;
    }

    /** One firing of the interval: shows one more code unit and clears the
        interval once the whole text is shown. A cleared interval never fires,
        so a tick after that changes nothing. */
    method Tick()
      requires Valid()
      modifies this
      ensures Valid() && text == old(text)
      ensures old(running) ==> i == old(i) + 1
      ensures !old(running) ==> i == old(i) && displayed == old(displayed) && running == old(running)
      ensures displayed <= text
    {
      if !running {
        return;
      }
      var next := text[..if i + 1 <= |text| then i + 1 else |text|];
      i := i + 1;
      if i >= |text| {
        running := false;
      }
      displayed := next;
    }

    /** The interval firing `ticks` times: the first `min(i + ticks, |text|)`
        code units are shown. */
    method Elapse(ticks: nat)
      requires Valid()
      modifies this
      ensures Valid() && text == old(text)
      ensures i == if old(i) + ticks <= |text| then old(i) + ticks else |text|
      ensures displayed == text[..i]
    {
      var n := 0;
      while n < ticks
        invariant Valid() && text == old(text)
        invariant n <= ticks
        invariant i == if old(i) + n <= |text| then old(i) + n else |text|
      {
        Tick();
        n := n + 1;
      }
    }
  }
}
