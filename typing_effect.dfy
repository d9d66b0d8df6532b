/** The subtitle element and the module-level variables of the typing effect
    (js/main.js:75-121) as an object. Its fields are the ones the page
    mutates; each `setTimeout` continuation becomes one call of `Step`, and
    the functions of the page become methods with the same control flow. */
module TypingEffect {
  import TextCycle

  class Subtitle {
    /** `TYPING_PHRASES` */
    const phrases: seq<string>
    /** `currentPhraseIndex` */
    var index: nat
    /** `subtitleElement.textContent` */
    var text: string
    /** The callback the pending timer will run, with its captured variables. */
    var pending: TextCycle.Pending

    function State(): TextCycle.Cycler
      reads this
    {
      TextCycle.Cycler(index, text, pending)
    }

    ghost predicate Valid()
      reads this
    {
      TextCycle.Inv(phrases, State())
    }

    /** The page has loaded: the cursor is 0, the element holds whatever the
        markup put in it, and the start-up timer is pending. */
    constructor (phrases: seq<string>, initialText: string)
      requires |phrases| > 0
      ensures Valid() && this.phrases == phrases
      ensures State() == TextCycle.Cycler(0, initialText, TextCycle.Start)
    {
      this.phrases := phrases;
      index := 0;
      text := initialText;
      pending := TextCycle.Start;
    }

    /** The pending timer fires. */
    method Step()
      requires Valid()
      modifies this
      ensures Valid() && State() == TextCycle.Next(phrases, old(State()))
    {
      match pending
      case Start => CycleTypingEffect();
      case TypeNext(p, i) =>
        assert i < |p| ==> p[..i] + [p[i]] == p[..i + 1];
        Type(p, i);
      case AfterTyped => EraseText();
      case EraseNext(s, i) => Erase(s, i);
    }

    method CycleTypingEffect()
      requires index < |phrases|
      modifies this
      ensures State() == TextCycle.CycleTypingEffect(phrases, old(State()))
    {
      var currentPhrase := phrases[index];
      TypeWriter(currentPhrase);
    }

    method TypeWriter(phrase: string)
      modifies this
      ensures State() == TextCycle.TypeWriter(old(State()), phrase)
    {
      text := "";
      Type(phrase, 0);
    }

    /** The closure `type` run with counter `i`. */
    method Type(phrase: string, i: nat)
      modifies this
      ensures State() == TextCycle.TypeTick(old(State()), phrase, i)
    {
      if i < |phrase| {
        text := text + [phrase[i]];
        pending := TextCycle.TypeNext(phrase, i + 1);
      } else {
        pending := TextCycle.AfterTyped;
      }
    }

    method EraseText()
      requires index < |phrases|
      modifies this
      ensures State() == TextCycle.EraseText(phrases, old(State()))
    {
      var snapshot := text;
      Erase(snapshot, |snapshot|);
    }

    /** The closure `erase` run with counter `i` over the captured `snapshot`. */
    method Erase(snapshot: string, i: nat)
      requires index < |phrases| && i <= |snapshot|
      modifies this
      ensures State() == TextCycle.EraseTick(phrases, old(State()), snapshot, i)
    {
      if i > 0 {
        text := snapshot[..i - 1];
        pending := TextCycle.EraseNext(snapshot, i - 1);
      } else {
        NextPhrase();
      }
    }

    /** The callback cycleTypingEffect hands to eraseText. */
    method NextPhrase()
      requires |phrases| > 0
      modifies this
      ensures State() == TextCycle.NextPhrase(phrases, old(State()))
    {
      index := (index + 1) % |phrases|;
      CycleTypingEffect();
    }
  }
}
