/** The subtitle's typing/erasing animation (js/main.js, "TYPING EFFECT") as a
    transition system on values.

    The page drives the animation by a chain of `setTimeout` callbacks, and at
    any moment exactly one of them is pending. A state of the model is the
    phrase cursor `currentPhraseIndex`, the subtitle's `textContent` and that
    one pending callback together with the variables its closure captured.
    `Next` is what happens when the pending callback fires: it runs the
    callback and everything the callback calls synchronously, up to the point
    where the next callback is scheduled. */
module TextCycle {

  /** `TYPING_PHRASES`. */
  const TypingPhrases: seq<string> := ["Full-Stack Web Developer", "Java Developer", "Problem Solver"]

  /** The timing fields of `CONFIG`, in milliseconds. */
  const LoaderDuration: nat := 1000
  const TypingSpeed: nat := 100
  const TypingDelay: nat := 2000

  /** The callback that is waiting for its timer. */
  datatype Pending =
    | Start                               // the page-load timer that first calls cycleTypingEffect
    | TypeNext(phrase: string, i: nat)    // typeWriter's `type`, with the phrase and its counter i
    | AfterTyped                          // the callback scheduled after the whole phrase is shown
    | EraseNext(snapshot: string, i: nat) // eraseText's `erase`, with the text it captured and its counter i

  /** The animation's state: `currentPhraseIndex`, the subtitle's text and the pending callback. */
  datatype Cycler = Cycler(index: nat, text: string, pending: Pending)

  /** The phases of the animation, as a reader of the page sees them. */
  datatype Phase = Starting | Typing | PausedAfterType | Erasing

  function PhaseOf(c: Cycler): Phase {
    match c.pending
    case Start => Starting
    case TypeNext(_, _) => Typing
    case AfterTyped => PausedAfterType
    case EraseNext(_, _) => Erasing
  }

  /** How long the pending callback waits before it fires; erasing runs at half
      the typing interval (`speed / 2`). */
  function Delay(p: Pending): nat {
    match p
    case Start => LoaderDuration + 100
    case TypeNext(_, _) => TypingSpeed
    case AfterTyped => TypingDelay
    case EraseNext(_, _) => TypingSpeed / 2
  }

  /** What holds between the pending callback, its captured variables, the
      phrase cursor and the text shown: the cursor is a valid position, the
      captured phrase is the current one, the counters are in range, and the
      text is the prefix of the phrase the counter says. */
  predicate Inv(phrases: seq<string>, c: Cycler) {
    && c.index < |phrases|
    && match c.pending
       case Start => true
       case TypeNext(p, i) => p == phrases[c.index] && 0 < i <= |p| && c.text == p[..i]
       case AfterTyped => c.text == phrases[c.index]
       case EraseNext(s, i) => s == phrases[c.index] && i < |s| && c.text == s[..i]
  }

  /** The body of `type` with counter `i`: append the i-th character and
      reschedule, or, once the counter reaches the phrase's length, schedule
      the post-typing callback. */
  function TypeTick(c: Cycler, phrase: string, i: nat): Cycler {
    if i < |phrase| then c.(text := c.text + [phrase[i]], pending := TypeNext(phrase, i + 1))
    else c.(pending := AfterTyped)
  }

  /** `typeWriter`: clear the text, then run `type` once with counter 0. */
  function TypeWriter(c: Cycler, phrase: string): Cycler {
    TypeTick(c.(text := ""), phrase, 0)
  }

  /** `cycleTypingEffect`: start typing the phrase under the cursor. */
  function CycleTypingEffect(phrases: seq<string>, c: Cycler): (r: Cycler)
    requires c.index < |phrases|
    ensures Inv(phrases, r) && r.index == c.index
    ensures r.text == phrases[c.index][..if phrases[c.index] == "" then 0 else 1]
    ensures r.pending == if phrases[c.index] == "" then AfterTyped else TypeNext(phrases[c.index], 1)
  {
    var phrase := phrases[c.index];
    assert phrase != "" ==> [phrase[0]] == phrase[..1];
    TypeWriter(c, phrase)
  }

  /** The callback eraseText is given: advance the cursor circularly and
      start the next cycle. */
  function NextPhrase(phrases: seq<string>, c: Cycler): Cycler
    requires |phrases| > 0
  {
    CycleTypingEffect(phrases, c.(index := (c.index + 1) % |phrases|))
  }

  /** The body of `erase` with counter `i` over the captured `snapshot`: show
      one character fewer and reschedule, or, once the counter is 0, run the
      callback at once. */
  function EraseTick(phrases: seq<string>, c: Cycler, snapshot: string, i: nat): Cycler
    requires |phrases| > 0 && i <= |snapshot|
  {
    if i > 0 then c.(text := snapshot[..i - 1], pending := EraseNext(snapshot, i - 1))
    else NextPhrase(phrases, c)
  }

  /** `eraseText`: capture the text shown, then run `erase` once with its length. */
  function EraseText(phrases: seq<string>, c: Cycler): Cycler
    requires |phrases| > 0
  {
    EraseTick(phrases, c, c.text, |c.text|)
  }

  /** The pending callback fires. */
  function Next(phrases: seq<string>, c: Cycler): (r: Cycler)
    requires Inv(phrases, c)
    ensures Inv(phrases, r)
  {
    match c.pending
    case Start => CycleTypingEffect(phrases, c)
    case TypeNext(p, i) =>
      assert i < |p| ==> p[..i] + [p[i]] == p[..i + 1];
      TypeTick(c, p, i)
    case AfterTyped => EraseText(phrases, c)
    case EraseNext(s, i) => EraseTick(phrases, c, s, i)
  }

  /** `k` callbacks fire one after the other. */
  function Run(phrases: seq<string>, c: Cycler, k: nat): (r: Cycler)
    requires Inv(phrases, c)
    ensures Inv(phrases, r)
    decreases k
  {
    if k == 0 then c else Run(phrases, Next(phrases, c), k - 1)
  }

  /** The milliseconds those `k` callbacks wait in all. */
  function Elapsed(phrases: seq<string>, c: Cycler, k: nat): nat
    requires Inv(phrases, c)
    decreases k
  {
    if k == 0 then 0 else Delay(c.pending) + Elapsed(phrases, Next(phrases, c), k - 1)
  }

  /** The state right after `cycleTypingEffect` started phrase `k`. */
  function Started(phrases: seq<string>, k: nat): Cycler
    requires k < |phrases|
  {
    CycleTypingEffect(phrases, Cycler(k, "", Start))
  }

  /** Where the animation stands `j` callbacks after phrase `k` of length n
      started, written out: j < n typing with j + 1 characters shown; j == n
      paused with the whole phrase shown; n < j <= 2n erasing with 2n - j
      characters left. */
  function CycleAt(phrases: seq<string>, k: nat, j: nat): Cycler
    requires k < |phrases| && j <= 2 * |phrases[k]|
  {
    var p := phrases[k];
    var n := |p|;
    if j < n then Cycler(k, p[..j + 1], TypeNext(p, j + 1))
    else if j == n then Cycler(k, p, AfterTyped)
    else Cycler(k, p[..2 * n - j], EraseNext(p, 2 * n - j))
  }

  /** The pending callback fires after an erase has emptied the text: only
      then does the cursor move. */
  predicate Erased(c: Cycler) {
    || (c.pending.EraseNext? && c.pending.i == 0)
    || (c.pending.AfterTyped? && c.text == "")
  }

  // ----- Lemmas -----

  lemma {:induction false} RunLast(phrases: seq<string>, c: Cycler, m: nat)
    requires Inv(phrases, c)
    ensures Run(phrases, c, m + 1) == Next(phrases, Run(phrases, c, m))
    decreases m
  {
    if m > 0 {
      RunLast(phrases, Next(phrases, c), m - 1);
    }
  }

  lemma {:induction false} ElapsedLast(phrases: seq<string>, c: Cycler, m: nat)
    requires Inv(phrases, c)
    ensures Elapsed(phrases, c, m + 1) == Elapsed(phrases, c, m) + Delay(Run(phrases, c, m).pending)
    decreases m
  {
    if m > 0 {
      ElapsedLast(phrases, Next(phrases, c), m - 1);
    }
  }

  /** Outside the start-up wait the text shown is always a prefix of the
      phrase under the cursor. */
  lemma BufferIsPrefix(phrases: seq<string>, c: Cycler)
    requires Inv(phrases, c) && !c.pending.Start?
    ensures c.text <= phrases[c.index]
  {
  }

  /** One `type` tick: the text grows by the phrase's next character, and the
      post-typing callback is scheduled exactly when the counter has reached
      the phrase's length, with the whole phrase shown. */
  lemma TypeStep(phrases: seq<string>, c: Cycler)
    requires Inv(phrases, c) && c.pending.TypeNext?
    ensures var p, i, r := c.pending.phrase, c.pending.i, Next(phrases, c);
      && r.index == c.index
      && (r.pending.AfterTyped? <==> i == |p|)
      && (i < |p| ==> r.text == c.text + [p[i]] && r.pending == TypeNext(p, i + 1))
      && (r.pending.AfterTyped? ==> r.text == p)
  {
  }

  /** One `erase` tick with a non-zero counter: the text loses exactly its
      last character, and the counter stays non-negative. */
  lemma EraseStep(phrases: seq<string>, c: Cycler)
    requires Inv(phrases, c) && c.pending.EraseNext? && c.pending.i > 0
    ensures var r := Next(phrases, c);
      && r.index == c.index
      && |r.text| == |c.text| - 1
      && r.text == c.text[..|c.text| - 1]
      && r.pending == EraseNext(c.pending.snapshot, c.pending.i - 1)
  {
  }

  /** The cursor moves only when an erase has just emptied the text, and then
      to the next position modulo the number of phrases. */
  lemma CursorAdvance(phrases: seq<string>, c: Cycler)
    requires Inv(phrases, c)
    ensures Next(phrases, c).index == if Erased(c) then (c.index + 1) % |phrases| else c.index
    ensures Erased(c) ==> c.text == ""
  {
  }

  /** Closed form of one cycle: the states `j` callbacks after phrase `k`
      started are those of `CycleAt`. */
  lemma {:induction false} CycleTrace(phrases: seq<string>, k: nat, j: nat)
    requires k < |phrases| && j <= 2 * |phrases[k]|
    ensures Run(phrases, Started(phrases, k), j) == CycleAt(phrases, k, j)
    decreases j
  {
    var p := phrases[k];
    var n := |p|;
    if j > 0 {
      CycleTrace(phrases, k, j - 1);
      RunLast(phrases, Started(phrases, k), j - 1);
      if j < n {
        assert p[..j] + [p[j]] == p[..j + 1];
      } else if j == n {
        assert p[..n] == p;
      } else if j == n + 1 {
        assert p[..n] == p;
      }
    }
  }

  /** The phases of one cycle come strictly in the order typing, pause,
      erasing, and the cursor does not move while they run. */
  lemma CyclePhases(phrases: seq<string>, k: nat, j: nat)
    requires k < |phrases| && j <= 2 * |phrases[k]|
    ensures var c, n := Run(phrases, Started(phrases, k), j), |phrases[k]|;
      && c.index == k
      && PhaseOf(c) == (if j < n then Typing else if j == n then PausedAfterType else Erasing)
  {
    CycleTrace(phrases, k, j);
  }

  /** One full cycle of phrase k takes 2 * |phrase| + 1 callbacks and
      150 * |phrase| + 2000 milliseconds, and ends by starting phrase
      (k + 1) mod N. */
  lemma FullCycle(phrases: seq<string>, k: nat)
    requires k < |phrases|
    ensures var n := |phrases[k]|;
      && Run(phrases, Started(phrases, k), 2 * n + 1) == Started(phrases, (k + 1) % |phrases|)
      && Elapsed(phrases, Started(phrases, k), 2 * n + 1) == (TypingSpeed + TypingSpeed / 2) * n + TypingDelay
  {
    var n := |phrases[k]|;
    CycleTrace(phrases, k, 2 * n);
    RunLast(phrases, Started(phrases, k), 2 * n);
    CycleTiming(phrases, k, 2 * n + 1);
  }

  /** The time callbacks have waited `j` callbacks into the cycle of phrase k:
      `TypingSpeed` per character typed, then `TypingDelay`, then
      `TypingSpeed / 2` per character erased. */
  lemma {:induction false} CycleTiming(phrases: seq<string>, k: nat, j: nat)
    requires k < |phrases| && j <= 2 * |phrases[k]| + 1
    ensures var n := |phrases[k]|;
      Elapsed(phrases, Started(phrases, k), j)
        == if j <= n then TypingSpeed * j
           else TypingSpeed * n + TypingDelay + TypingSpeed / 2 * (j - n - 1)
    decreases j
  {
    if j > 0 {
      var n := |phrases[k]|;
      CycleTiming(phrases, k, j - 1);
      ElapsedLast(phrases, Started(phrases, k), j - 1);
      CycleTrace(phrases, k, j - 1);
      var d := Delay(CycleAt(phrases, k, j - 1).pending);
      assert d == if j - 1 < n then TypingSpeed else if j - 1 == n then TypingDelay else TypingSpeed / 2;
    }
  }

  /** After |phrase| * TypingSpeed milliseconds of typing, the phrase is shown
      exactly and the pause begins. */
  lemma PhraseShownAfterTyping(phrases: seq<string>, k: nat)
    requires k < |phrases|
    ensures var n := |phrases[k]|;
      && Run(phrases, Started(phrases, k), n).text == phrases[k]
      && Run(phrases, Started(phrases, k), n).pending == AfterTyped
      && Elapsed(phrases, Started(phrases, k), n) == TypingSpeed * n
  {
    CycleTrace(phrases, k, |phrases[k]|);
    CycleTiming(phrases, k, |phrases[k]|);
  }

  /** With the page's own phrases, the cycle of the last one, "Problem
      Solver", ends by starting the first one again. */
  lemma LastPhraseWrapsAround()
    ensures Run(TypingPhrases, Started(TypingPhrases, 2), 29) == Started(TypingPhrases, 0)
  {
    FullCycle(TypingPhrases, 2);
  }

  /** The first tick after page load, from the state the page starts in
      (cursor 0, whatever text the markup holds), is the start of phrase 0's
      cycle, so the per-cycle lemmas describe the run the page performs. */
  lemma FirstTick(phrases: seq<string>, markupText: string)
    requires |phrases| > 0
    ensures Inv(phrases, Cycler(0, markupText, Start))
    ensures Next(phrases, Cycler(0, markupText, Start)) == Started(phrases, 0)
  {
  }
}
