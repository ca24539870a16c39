/**
 The typing simulator: for every text, configuration and random stream, the generated
 actions replay to exactly the intended text, through all mistype, backspace and paste
 branches. Randomness is an arbitrary oracle constrained only by its range.
 */
module Typing {
  import opened Randomness
  import opened TypingReplay

  // ----- configuration -----

  datatype Config = Config(
    minDelay: nat,
    maxDelay: nat,
    correction: real,
    paste: real,
    pauseAfterWords: nat,
    wordPause: nat)

  function Clamp(p: real): real {
    if p < 0.0 then 0.0 else if p > 1.0 then 1.0 else p
  }

  function Sanitize(c: Config): Config {
    var lo, hi := if c.minDelay <= c.maxDelay then c.minDelay else c.maxDelay,
                  if c.minDelay <= c.maxDelay then c.maxDelay else c.minDelay;
    Config(lo, if hi <= lo then lo + 1 else hi, Clamp(c.correction), Clamp(c.paste),
           if c.pauseAfterWords == 0 then 1 else c.pauseAfterWords, c.wordPause)
  }

  // ----- the generator -----

  /** The Unicode White_Space property. */
  predicate IsWhitespace(c: char) {
    var n := c as int;
    || 0x09 <= n <= 0x0D || n == 0x20 || n == 0x85 || n == 0xA0 || n == 0x1680
    || 0x2000 <= n <= 0x200A || n == 0x2028 || n == 0x2029 || n == 0x202F || n == 0x205F || n == 0x3000
  }

  predicate IsUpper(c: char) {
    'A' <= c <= 'Z'
  }

  function ToLower(c: char): char {
    if IsUpper(c) then c + ' ' else c
  }

  function ToUpper(c: char): char {
    if 'a' <= c <= 'z' then c - ' ' else c
  }

  const ROWS: seq<string> := ["1234567890", "qwertyuiop", "asdfghjkl", "zxcvbnm"]
  const FALLBACK: string := "aeiount"

  predicate OnRow(r: nat, i: nat, c: char) {
    r < |ROWS| && i < |ROWS[r]| && ROWS[r][i] == c
  }

  /** `b` is the key next to `a` in some keyboard row. */
  ghost predicate Neighbours(a: char, b: char) {
    exists r: nat, i: nat :: (OnRow(r, i, a) && OnRow(r, i + 1, b)) || (OnRow(r, i, b) && OnRow(r, i + 1, a))
  }

  /** Row keys are digits or small letters, and no key is its own neighbour. */
  lemma RowKeys(r: nat, i: nat)
    requires r < |ROWS| && i < |ROWS[r]|
    ensures '0' <= ROWS[r][i] <= '9' || 'a' <= ROWS[r][i] <= 'z'
    ensures r > 0 ==> 'a' <= ROWS[r][i]
    ensures r == 0 ==> ROWS[r][i] <= '9'
    ensures i + 1 < |ROWS[r]| ==> ROWS[r][i] != ROWS[r][i + 1]
  {
    assert ROWS[0] == "1234567890" && ROWS[1] == "qwertyuiop" && ROWS[2] == "asdfghjkl" && ROWS[3] == "zxcvbnm";
  }

  method Position(row: string, c: char) returns (idx: nat)
    ensures idx <= |row| && c !in row[..idx]
    ensures idx < |row| ==> row[idx] == c
  {
    idx := 0;
    while idx < |row| && row[idx] != c
      invariant idx <= |row| && c !in row[..idx]
    {
      idx := idx + 1;
    }
  }

  method PickNeighbour(r: nat, idx: nat) returns (typo: char)
    requires r < |ROWS| && idx < |ROWS[r]|
    ensures Neighbours(ROWS[r][idx], typo) && typo != ROWS[r][idx]
    ensures '0' <= typo <= '9' || 'a' <= typo <= 'z'
    ensures ROWS[r][idx] >= 'a' ==> typo >= 'a'
  {
    var row := ROWS[r];
    var candidates := [];
    RowKeys(r, idx);
    assert OnRow(r, idx, row[idx]);
    if idx > 0 {
      RowKeys(r, idx - 1);
      assert OnRow(r, idx - 1, row[idx - 1]);
      candidates := candidates + [row[idx - 1]];
    }
    if idx + 1 < |row| {
      RowKeys(r, idx + 1);
      assert OnRow(r, idx + 1, row[idx + 1]);
      candidates := candidates + [row[idx + 1]];
    }
    assert |row| >= 7;
    var k := DrawIndex(0, |candidates| - 1);
    typo := candidates[k];
  }

  /** Stands in for a key that is on no row. */
  method PickFallback(lower: char) returns (pick: char)
    ensures 'a' <= pick <= 'z' && pick != lower
  {
    var k := DrawIndex(0, |FALLBACK| - 1);
    pick := FALLBACK[k];
    if pick == lower {
      pick := 'x';
    }
  }

  lemma CaseRoundTrip(c: char)
    ensures !IsUpper(ToLower(c))
    ensures IsUpper(c) ==> ToUpper(ToLower(c)) == c
    ensures 'a' <= c <= 'z' ==> IsUpper(ToUpper(c)) && ToLower(ToUpper(c)) == c
  {
  }

  method NearbyTypo(ch: char) returns (wrong: char)
    ensures wrong != ch
    ensures (exists r :: 0 <= r < |ROWS| && ToLower(ch) in ROWS[r]) ==> Neighbours(ToLower(ch), ToLower(wrong))
    ensures IsUpper(ch) <==> IsUpper(wrong)
  {
    var lower := ToLower(ch);
    var r, idx := 0, 0;
    while r < |ROWS|
      invariant r <= |ROWS|
      invariant forall s :: 0 <= s < r ==> lower !in ROWS[s]
    {
      idx := Position(ROWS[r], lower);
      if idx < |ROWS[r]| {
        break;
      }
      r := r + 1;
    }
    var typo;
    if r < |ROWS| {
      typo := PickNeighbour(r, idx);
    } else {
      typo := PickFallback(lower);
    }
    CaseRoundTrip(ch);
    CaseRoundTrip(typo);
    wrong := if IsUpper(ch) then ToUpper(typo) else typo;
  }

  /** The delay of a key is one that the configuration allows. */
  predicate Timed(config: Config, delay: nat) {
    if config.minDelay >= config.maxDelay then delay == config.minDelay else config.minDelay <= delay < config.maxDelay
  }

  /**
   One character per key, at a delay that the configuration allows; a paste of at most ten
   characters, and a backspace of one, only if the configuration has them at all.
   */
  predicate Humane(config: Config, a: Action) {
    match a
    case KeyDown(character, delay) => |character| == 1 && Timed(config, delay)
    case KeyUp(character, _) => |character| == 1
    case CopyPaste(text, _) => config.paste > 0.0 && 1 <= |text| <= 10
    case Backspace(count, _) => config.correction > 0.0 && count == 1
    case SelectAll(_) => false
    case Pause(_) => true
  }

  ghost predicate AllHumane(config: Config, actions: seq<Action>) {
    forall a :: a in actions ==> Humane(config, a)
  }

  method PushKey(config: Config, actions: seq<Action>, ch: char, ghost text: string) returns (longer: seq<Action>)
    requires Types(actions, text) && AllHumane(config, actions)
    ensures Types(longer, text + [ch]) && AllHumane(config, longer)
  {
    var down := DrawMs(config.minDelay, config.maxDelay);
    var up := DrawMs(10, 50);
    KeyTypes(ch, down, up);
    TypesThen(actions, text, Key(ch, down, up), [ch]);
    longer := actions + [KeyDown([ch], down)] + [KeyUp([ch], up)];
    assert longer == actions + Key(ch, down, up);
  }

  method PushPause(config: Config, actions: seq<Action>, min: nat, max: nat, ghost text: string) returns (longer: seq<Action>)
    requires Types(actions, text) && AllHumane(config, actions)
    ensures Types(longer, text) && AllHumane(config, longer)
  {
    var ms := DrawMs(min, max);
    PauseTypes(ms);
    TypesThen(actions, text, [Pause(ms)], "");
    assert text + "" == text;
    longer := actions + [Pause(ms)];
  }

  /** A wrong key, a pause and a backspace; the right key comes after. */
  method PushMistype(config: Config, actions: seq<Action>, ch: char, ghost text: string) returns (longer: seq<Action>)
    requires Types(actions, text) && AllHumane(config, actions) && config.correction > 0.0
    ensures Types(longer, text) && AllHumane(config, longer)
  {
    longer := actions;
    var wrong := NearbyTypo(ch);
    if wrong != ch {
      var down := DrawMs(config.minDelay, config.maxDelay);
      var up := DrawMs(10, 50);
      var pause := DrawMs(40, 120);
      var back := DrawMs(60, 160);
      longer := actions + (Key(wrong, down, up) + [Pause(pause)] + [Backspace(1, back)]);
      MistypeTypes(wrong, down, up, pause, back);
      TypesThen(actions, text, Key(wrong, down, up) + [Pause(pause)] + [Backspace(1, back)], "");
      assert text + "" == text;
    }
  }

  /** Where a paste burst that starts at `i` ends. */
  method BurstEnd(text: string, i: nat) returns (end: nat)
    requires i + 3 < |text| && !IsWhitespace(text[i])
    ensures i < end <= |text| && end <= i + 10
    ensures end < |text| ==> !IsWhitespace(text[end - 1])
  {
    var k := DrawIndex(3, if |text| - i < 10 then |text| - i else 10);
    end := i + k;
    while end < |text| && end > i && IsWhitespace(text[end - 1])
      invariant i < end <= i + k
      decreases end
    {
      end := end - 1;
    }
  }

  /** `generate_actions`. */
  method GenerateActions(config: Config, text: string) returns (actions: seq<Action>)
    ensures Types(actions, text) && AllHumane(config, actions)
  {
    actions := [];
    TypesNothing();
    var i, words := 0, 0;
    while i < |text|
      invariant i <= |text| && Types(actions, text[..i]) && AllHumane(config, actions)
    {
      if i > 0 && IsWhitespace(text[i - 1]) && !IsWhitespace(text[i]) {
        words := if words < 0xFFFF_FFFF then words + 1 else words;
        if words >= config.pauseAfterWords {
          actions := PushPause(config, actions, config.wordPause / 2, config.wordPause * 2, text[..i]);
          words := 0;
        }
      }
      var burst := false;
      if !IsWhitespace(text[i]) && i + 3 < |text| {
        burst := Chance(config.paste);
      }
      if burst {
        var end := BurstEnd(text, i);
        var ms := DrawMs(80, 220);
        PasteTypes(text[i..end], ms);
        TypesThen(actions, text[..i], [CopyPaste(text[i..end], ms)], text[i..end]);
        actions := actions + [CopyPaste(text[i..end], ms)];
        assert text[..i] + text[i..end] == text[..end];
        i := end;
        continue;
      }
      var mistype := false;
      if !IsWhitespace(text[i]) {
        mistype := Chance(config.correction);
      }
      if mistype {
        actions := PushMistype(config, actions, text[i], text[..i]);
      }
      actions := PushKey(config, actions, text[i], text[..i]);
      assert text[..i] + [text[i]] == text[..i + 1];
      i := i + 1;
    }
    assert text[..i] == text;
  }

  /** `generate_with_clear`, over a field with any content and selection. */
  method GenerateWithClear(config: Config, value: string, clearFirst: bool) returns (actions: seq<Action>)
    ensures clearFirst ==> forall f :: Replay(f, actions) == Field(value, false)
    ensures !clearFirst ==> Types(actions, value)
  {
    actions := [];
    if clearFirst {
      var before := DrawMs(80, 180);
      var select := DrawMs(40, 100);
      var back := DrawMs(80, 200);
      var after := DrawMs(100, 250);
      actions := [Pause(before), SelectAll(select), Backspace(1, back), Pause(after)];
    }
    var typed := GenerateActions(config, value);
    if clearFirst {
      forall f
        ensures Replay(f, actions + typed) == Field(value, false)
      {
        ClearReplay(f, actions);
        ReplayThen(f, actions, typed);
        assert TypesFrom("", typed, value) && "" + value == value;
      }
    } else {
      assert actions + typed == typed;
    }
    actions := actions + typed;
  }

  lemma ClearReplay(f: Field, clear: seq<Action>)
    requires |clear| == 4 && clear[0].Pause? && clear[1].SelectAll? && clear[3].Pause?
    requires clear[2].Backspace? && clear[2].count == 1
    ensures Replay(f, clear) == Field("", false)
  {
    var f1 := Step(f, clear[0]);
    var f2 := Step(f1, clear[1]);
    var f3 := Step(f2, clear[2]);
    assert clear[..3][..2] == clear[..2] && clear[..2][..1] == clear[..1] && clear[..1][..0] == [];
    assert Replay(f, clear[..1]) == f1;
    assert Replay(f, clear[..2]) == f2;
    assert Replay(f, clear[..3]) == f3;
  }

  /** Composing what was generated gives back the text. */
  method RoundTrip(config: Config, text: string) returns (composed: string)
    ensures composed == text
  {
    var actions := GenerateActions(Sanitize(config), text);
    composed := Compose(actions);
    assert TypesFrom("", actions, text) && "" + text == text;
  }
}
