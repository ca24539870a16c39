/**
 Typing actions and what replaying them does to a field: plans that type a text, plans that
 take a mistake back, and how plans compose.
 */
module TypingReplay {

  // ----- actions -----

  datatype Action =
    | KeyDown(character: string, delay: nat)
    | KeyUp(character: string, delay: nat)
    | SelectAll(delay: nat)
    | Backspace(count: nat, delay: nat)
    | CopyPaste(text: string, delay: nat)
    | Pause(duration: nat)

  // ----- replay -----

  datatype Field = Field(text: string, selected: bool)

  function Insert(f: Field, text: string): Field {
    Field(if f.selected then text else f.text + text, false)
  }

  function Shorten(text: string, count: nat): string {
    text[..if count <= |text| then |text| - count else 0]
  }

  function Step(f: Field, a: Action): Field {
    match a
    case KeyDown(character, _) => Insert(f, if character == "" then "" else [character[0]])
    case KeyUp(_, _) => f
    case Pause(_) => f
    case SelectAll(_) => f.(selected := f.text != "")
    case Backspace(count, _) => Field(if f.selected then "" else Shorten(f.text, count), false)
    case CopyPaste(text, _) => Insert(f, text)
  }

  function Replay(f: Field, actions: seq<Action>): Field {
    if actions == [] then f else Step(Replay(f, actions[..|actions| - 1]), actions[|actions| - 1])
  }

  lemma {:induction false} ReplayThen(f: Field, a: seq<Action>, b: seq<Action>)
    ensures Replay(f, a + b) == Replay(Replay(f, a), b)
  {
    if b == [] {
      assert a + b == a;
    } else {
      var c := b[..|b| - 1];
      assert (a + b)[..|a + b| - 1] == a + c;
      ReplayThen(f, a, c);
    }
  }

  /** `compose_typed_text`. */
  method Compose(actions: seq<Action>) returns (text: string)
    ensures text == Replay(Field("", false), actions).text
  {
    var buf, selected := "", false;
    for i := 0 to |actions|
      invariant Field(buf, selected) == Replay(Field("", false), actions[..i])
    {
      assert actions[..i + 1][..i] == actions[..i];
      match actions[i] {
        case KeyDown(character, _) =>
          if selected {
            buf, selected := "", false;
          }
          if character != "" {
            buf := buf + [character[0]];
          }
        case KeyUp(_, _) =>
        case Pause(_) =>
        case SelectAll(_) =>
          selected := buf != "";
        case Backspace(count, _) =>
          if selected {
            buf, selected := "", false;
          } else {
            ghost var before := buf;
            for k := 0 to count
              invariant buf == Shorten(before, k)
            {
              if buf != "" {
                buf := buf[..|buf| - 1];
              }
            }
          }
        case CopyPaste(text, _) =>
          if selected {
            buf, selected := "", false;
          }
          buf := buf + text;
      }
    }
    assert actions[..|actions|] == actions;
    text := buf;
  }

  // ----- plans that type a text -----

  /** A field on its way from `before` to `before + text`: nothing of `before` is lost and at most the last character is wrong. */
  ghost predicate OnTrack(before: string, text: string, typed: string) {
    && before <= typed
    && (typed <= before + text || typed[..|typed| - 1] <= before + text)
  }

  ghost predicate Tracks(before: string, text: string, actions: seq<Action>) {
    forall k :: 0 <= k <= |actions| ==> OnTrack(before, text, Replay(Field(before, false), actions[..k]).text)
  }

  ghost predicate TypesFrom(before: string, actions: seq<Action>, text: string) {
    Replay(Field(before, false), actions) == Field(before + text, false) && Tracks(before, text, actions)
  }

  /** Replayed over any field without a selection, `actions` append `text` and stay on track throughout. */
  ghost predicate Types(actions: seq<Action>, text: string) {
    forall before: string :: TypesFrom(before, actions, text)
  }

  lemma TracksPush(before: string, text: string, actions: seq<Action>, a: Action)
    requires Tracks(before, text, actions)
    requires OnTrack(before, text, Step(Replay(Field(before, false), actions), a).text)
    ensures Tracks(before, text, actions + [a])
    ensures Replay(Field(before, false), actions + [a]) == Step(Replay(Field(before, false), actions), a)
  {
    var longer := actions + [a];
    assert longer[..|actions|] == actions;
    forall k | 0 <= k <= |longer|
      ensures OnTrack(before, text, Replay(Field(before, false), longer[..k]).text)
    {
      assert longer[..k] == if k <= |actions| then actions[..k] else longer;
    }
  }

  lemma TypesNothing()
    ensures Types([], "")
  {
    forall before: string
      ensures TypesFrom(before, [], "")
    {
      assert before + "" == before;
    }
  }

  lemma FirstOnTrack(before: string, a: seq<Action>, t: string, b: seq<Action>, u: string, k: nat)
    requires TypesFrom(before, a, t) && k <= |a|
    ensures OnTrack(before, t + u, Replay(Field(before, false), (a + b)[..k]).text)
  {
    assert (a + b)[..k] == a[..k];
    assert OnTrack(before, t, Replay(Field(before, false), a[..k]).text);
    assert before + t + u == before + (t + u);
  }

  lemma ThenOnTrack(before: string, a: seq<Action>, t: string, b: seq<Action>, u: string, k: nat)
    requires TypesFrom(before, a, t) && TypesFrom(before + t, b, u) && |a| <= k <= |a + b|
    ensures OnTrack(before, t + u, Replay(Field(before, false), (a + b)[..k]).text)
  {
    assert (a + b)[..k] == a + b[..k - |a|];
    ReplayThen(Field(before, false), a, b[..k - |a|]);
    assert OnTrack(before + t, u, Replay(Field(before + t, false), b[..k - |a|]).text);
    assert before + t + u == before + (t + u);
  }

  lemma TypesFromThen(before: string, a: seq<Action>, t: string, b: seq<Action>, u: string)
    requires TypesFrom(before, a, t) && TypesFrom(before + t, b, u)
    ensures TypesFrom(before, a + b, t + u)
  {
    assert before + t + u == before + (t + u);
    ReplayThen(Field(before, false), a, b);
    forall k | 0 <= k <= |a + b|
      ensures OnTrack(before, t + u, Replay(Field(before, false), (a + b)[..k]).text)
    {
      if k <= |a| {
        FirstOnTrack(before, a, t, b, u, k);
      } else {
        ThenOnTrack(before, a, t, b, u, k);
      }
    }
  }

  lemma TypesThen(a: seq<Action>, t: string, b: seq<Action>, u: string)
    requires Types(a, t) && Types(b, u)
    ensures Types(a + b, t + u)
  {
    forall before: string
      ensures TypesFrom(before, a + b, t + u)
    {
      assert TypesFrom(before, a, t) && TypesFrom(before + t, b, u);
      TypesFromThen(before, a, t, b, u);
    }
  }

  lemma PauseTypes(ms: nat)
    ensures Types([Pause(ms)], "")
  {
    forall before: string
      ensures TypesFrom(before, [Pause(ms)], "")
    {
      assert before + "" == before;
      TracksPush(before, "", [], Pause(ms));
      assert [] + [Pause(ms)] == [Pause(ms)];
    }
  }

  lemma PasteTypes(text: string, ms: nat)
    ensures Types([CopyPaste(text, ms)], text)
  {
    forall before: string
      ensures TypesFrom(before, [CopyPaste(text, ms)], text)
    {
      TracksPush(before, text, [], CopyPaste(text, ms));
      assert [] + [CopyPaste(text, ms)] == [CopyPaste(text, ms)];
    }
  }

  /** The two halves of one key press. */
  function Key(ch: char, down: nat, up: nat): seq<Action> {
    [KeyDown([ch], down), KeyUp([ch], up)]
  }

  lemma KeyReplay(before: string, text: string, ch: char, down: nat, up: nat)
    requires OnTrack(before, text, before + [ch])
    ensures Replay(Field(before, false), Key(ch, down, up)) == Field(before + [ch], false)
    ensures Tracks(before, text, Key(ch, down, up))
  {
    var press, release := KeyDown([ch], down), KeyUp([ch], up);
    TracksPush(before, text, [], press);
    assert [] + [press] == [press] && [press] + [release] == Key(ch, down, up);
    assert Replay(Field(before, false), [press]) == Field(before + [ch], false);
    TracksPush(before, text, [press], release);
  }

  lemma KeyTypes(ch: char, down: nat, up: nat)
    ensures Types(Key(ch, down, up), [ch])
  {
    forall before: string
      ensures TypesFrom(before, Key(ch, down, up), [ch])
    {
      KeyReplay(before, [ch], ch, down, up);
    }
  }

  /** A wrong key that is taken back leaves nothing. */
  lemma MistypeTypes(wrong: char, down: nat, up: nat, pause: nat, back: nat)
    ensures Types(Key(wrong, down, up) + [Pause(pause)] + [Backspace(1, back)], "")
  {
    var key := Key(wrong, down, up);
    forall before: string
      ensures TypesFrom(before, key + [Pause(pause)] + [Backspace(1, back)], "")
    {
      assert before + "" == before;
      assert (before + [wrong])[..|before|] == before;
      KeyReplay(before, "", wrong, down, up);
      TracksPush(before, "", key, Pause(pause));
      TracksPush(before, "", key + [Pause(pause)], Backspace(1, back));
    }
  }

  // ----- scripted delay -----

  const U64_MAX: nat := 0xFFFF_FFFF_FFFF_FFFF

  function Saturate(n: nat): nat {
    if n <= U64_MAX then n else U64_MAX
  }

  /** The waits of the executor: one for each key event, and a backspace action is one event per character. */
  function Waits(a: Action): seq<nat> {
    match a
    case Backspace(count, delay) => seq(count, _ => delay)
    case KeyDown(_, delay) => [delay]
    case KeyUp(_, delay) => [delay]
    case SelectAll(delay) => [delay]
    case CopyPaste(_, delay) => [delay]
    case Pause(duration) => [duration]
  }

  function AllWaits(actions: seq<Action>): seq<nat> {
    if actions == [] then [] else AllWaits(actions[..|actions| - 1]) + Waits(actions[|actions| - 1])
  }

  function Sum(ms: seq<nat>): nat {
    if ms == [] then 0 else Sum(ms[..|ms| - 1]) + ms[|ms| - 1]
  }

  lemma {:induction false} SumThen(a: seq<nat>, b: seq<nat>)
    ensures Sum(a + b) == Sum(a) + Sum(b)
  {
    if b == [] {
      assert a + b == a;
    } else {
      assert (a + b)[..|a + b| - 1] == a + b[..|b| - 1];
      SumThen(a, b[..|b| - 1]);
    }
  }

  lemma {:induction false} SumRepeat(ms: seq<nat>, delay: nat)
    requires forall i :: 0 <= i < |ms| ==> ms[i] == delay
    ensures Sum(ms) == delay * |ms|
  {
    if ms != [] {
      SumRepeat(ms[..|ms| - 1], delay);
      assert delay * (|ms| - 1) + delay == delay * |ms|;
    }
  }

  /** `synthesized_ms`, without a ceiling. */
  function Synthesized(a: Action): nat {
    match a
    case KeyDown(_, delay) => delay
    case KeyUp(_, delay) => delay
    case SelectAll(delay) => delay
    case Backspace(count, delay) => delay * count
    case CopyPaste(_, delay) => delay
    case Pause(duration) => duration
  }

  /** An action is credited with exactly what the executor waits for it. */
  lemma SynthesizedIsWaited(a: Action)
    ensures Synthesized(a) == Sum(Waits(a))
  {
    if a.Backspace? {
      SumRepeat(Waits(a), a.delay);
    } else {
      assert Waits(a)[..0] == [];
    }
  }

  /** `synthesized_total_ms`: saturating at every step is the same as saturating the sum of all waits once. */
  method SynthesizedTotalMs(actions: seq<Action>) returns (ms: nat)
    ensures ms == Saturate(Sum(AllWaits(actions)))
  {
    ms := 0;
    for i := 0 to |actions|
      invariant ms == Saturate(Sum(AllWaits(actions[..i])))
    {
      assert actions[..i + 1][..i] == actions[..i];
      SynthesizedIsWaited(actions[i]);
      SumThen(AllWaits(actions[..i]), Waits(actions[i]));
      ms := Saturate(ms + Saturate(Synthesized(actions[i])));
    }
    assert actions[..|actions|] == actions;
  }
}
