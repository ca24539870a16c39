/** One control of a form snapshot: its data, its validator, and what acceptance means. */
module FormControls {
  import opened Prelude

  const MAX_OPTIONS: nat := 512
  const MAX_REFERENCES: nat := 512
  const MAX_ACCEPT_TYPES: nat := 128
  const MAX_TARGET_PATH: nat := 8
  const MAX_TARGET_ORDINAL: nat := 2_047
  const MAX_TARGET_ATTRIBUTES: nat := 32
  const MAX_FLAGS: nat := 10
  const MAX_ID_BYTES: nat := 128
  const MAX_TEXT_BYTES: nat := 2_048
  const MAX_VALUE_BYTES: nat := 4_096
  const MAX_MESSAGE_BYTES: nat := 1_024

  // ----- data -----

  datatype Segment = Segment(role: string, accessibleName: string, ordinal: Option<nat>)

  datatype Target = Target(
    attributes: map<string, string>,
    role: string,
    accessibleName: string,
    ordinal: Option<nat>,
    framePath: seq<Segment>,
    shadowPath: seq<Segment>)

  datatype Kind =
    | Text | Email | Password | Search | Number | Checkbox | Radio | Switch | SelectOne | SelectMultiple
    | Date | Time | DateTimeLocal | Range | File | ContentEditable | Combobox | Listbox | Submit | Reset | Other

  datatype ControlState =
    | EmptyState
    | TextState(value: string)
    | Redacted(present: bool)
    | Checked(checked: bool)
    | Selection(values: seq<string>)
    | Files(count: nat)

  datatype Operation =
    SetText | SetChecked | ChooseOne | ChooseMany | SetFiles | Clear | Activate | PasswordManagerFill

  datatype Constraints = Constraints(
    pattern: Option<string>,
    minLength: Option<nat>,
    maxLength: Option<nat>,
    min: Option<string>,
    max: Option<string>,
    step: Option<string>,
    accept: seq<string>)

  datatype Flag =
    | ValueMissing | TypeMismatch | PatternMismatch | TooLong | TooShort
    | RangeUnderflow | RangeOverflow | StepMismatch | BadInput | CustomError

  datatype Validity = Validity(valid: bool, flags: seq<Flag>, message: Option<string>, describedBy: seq<string>)

  datatype Choice = Choice(value: string, caption: string, groupLabel: Option<string>)

  datatype Control = Control(
    id: string,
    formId: Option<string>,
    groupId: Option<string>,
    target: Option<Target>,
    kind: Kind,
    accessibleName: Option<string>,
    caption: Option<string>,
    description: Option<string>,
    placeholder: Option<string>,
    autocomplete: Option<string>,
    state: ControlState,
    constraints: Constraints,
    validity: Validity,
    options: seq<Choice>,
    operations: seq<Operation>)

  // ----- text -----

  /** UTF-8 of one character. */
  function Encode(c: char): seq<int> {
    var n := c as int;
    if n < 0x80 then [n]
    else if n < 0x800 then [0xC0 + n / 64, 0x80 + n % 64]
    else if n < 0x1_0000 then [0xE0 + n / 4096, 0x80 + n / 64 % 64, 0x80 + n % 64]
    else [0xF0 + n / 262144, 0x80 + n / 4096 % 64, 0x80 + n / 64 % 64, 0x80 + n % 64]
  }

  function Utf8(s: string): seq<int> {
    if s == "" then [] else Utf8(s[..|s| - 1]) + Encode(s[|s| - 1])
  }

  /** The code point that the bytes of one character stand for. */
  function Decoded(bs: seq<int>): int {
    if |bs| == 1 then bs[0]
    else if |bs| == 2 then (bs[0] - 0xC0) * 64 + (bs[1] - 0x80)
    else if |bs| == 3 then (bs[0] - 0xE0) * 4096 + (bs[1] - 0x80) * 64 + (bs[2] - 0x80)
    else if |bs| == 4 then (bs[0] - 0xF0) * 262144 + (bs[1] - 0x80) * 4096 + (bs[2] - 0x80) * 64 + (bs[3] - 0x80)
    else -1
  }

  /** The encoding loses nothing. */
  lemma EncodeDecodes(c: char)
    ensures 1 <= |Encode(c)| <= 4 && Decoded(Encode(c)) == c as int
    ensures forall b :: b in Encode(c) ==> 0 <= b < 256
  {
    var n := c as int;
    assert n == n / 64 * 64 + n % 64;
    assert n / 64 == n / 4096 * 64 + n / 64 % 64;
    assert n / 4096 == n / 262144 * 64 + n / 4096 % 64;
  }

  predicate IsControl(c: char) {
    c <= '\U{1F}' || '\U{7F}' <= c <= '\U{9F}'
  }

  ghost predicate TextOk(s: string, max: nat, allowEmpty: bool) {
    && (allowEmpty || s != "")
    && |Utf8(s)| <= max
    && forall i :: 0 <= i < |s| ==> !IsControl(s[i])
  }

  ghost predicate TextsOk(ts: seq<string>, max: nat, allowEmpty: bool) {
    forall t :: t in ts ==> TextOk(t, max, allowEmpty)
  }

  ghost predicate IdOk(s: string) {
    TextOk(s, MAX_ID_BYTES, false)
  }

  ghost predicate OptionalOk(s: Option<string>, max: nat) {
    s.Some? ==> TextOk(s.value, max, false)
  }

  // ----- distinctness -----

  ghost predicate Distinct<T>(s: seq<T>) {
    forall i, j :: 0 <= i < j < |s| ==> s[i] != s[j]
  }

  function Elements<T(==)>(s: seq<T>): set<T> {
    set x | x in s
  }

  /** Collecting into a set loses nothing exactly when there are no repetitions. */
  lemma {:induction false} ElementsCount<T>(s: seq<T>)
    ensures |Elements(s)| <= |s|
    ensures |Elements(s)| == |s| <==> Distinct(s)
  {
    if s != [] {
      var rest, last := s[..|s| - 1], s[|s| - 1];
      ElementsCount(rest);
      assert s == rest + [last];
      assert Elements(s) == Elements(rest) + {last};
      if last in rest {
        var i :| 0 <= i < |rest| && rest[i] == last;
        assert s[i] == s[|s| - 1];
        assert Elements(s) == Elements(rest);
      } else {
        assert Distinct(s) <==> Distinct(rest) by {
          if Distinct(s) {
            assert forall i, j :: 0 <= i < j < |rest| ==> rest[i] == s[i] && rest[j] == s[j];
          }
        }
      }
    }
  }

  method HasNoRepeats<T(==)>(s: seq<T>) returns (ok: bool)
    ensures ok <==> Distinct(s)
  {
    ElementsCount(s);
    ok := |Elements(s)| == |s|;
  }

  // ----- pure checks of one control -----

  ghost predicate SegmentOk(g: Segment) {
    && TextOk(g.role, MAX_ID_BYTES, false)
    && TextOk(g.accessibleName, MAX_TEXT_BYTES, true)
    && (g.ordinal.Some? ==> g.ordinal.value <= MAX_TARGET_ORDINAL)
  }

  ghost predicate AttributesOk(attributes: map<string, string>) {
    forall n :: n in attributes ==> TextOk(n, MAX_ID_BYTES, false) && TextOk(attributes[n], MAX_TEXT_BYTES, true)
  }

  ghost predicate SegmentsOk(gs: seq<Segment>) {
    forall g :: g in gs ==> SegmentOk(g)
  }

  ghost predicate TargetOk(t: Option<Target>) {
    t.Some? ==>
      var t := t.value;
      && TextOk(t.role, MAX_ID_BYTES, false)
      && TextOk(t.accessibleName, MAX_TEXT_BYTES, t.attributes != map[])
      && |t.attributes.Keys| <= MAX_TARGET_ATTRIBUTES && AttributesOk(t.attributes)
      && (t.ordinal.Some? ==> t.ordinal.value <= MAX_TARGET_ORDINAL)
      && |t.framePath| <= MAX_TARGET_PATH && |t.shadowPath| <= MAX_TARGET_PATH
      && SegmentsOk(t.framePath) && SegmentsOk(t.shadowPath)
  }

  ghost predicate StateOk(kind: Kind, s: ControlState) {
    match s
    case TextState(value) => kind != Password && TextOk(value, MAX_VALUE_BYTES, true)
    case Selection(values) => |values| <= MAX_OPTIONS && TextsOk(values, MAX_VALUE_BYTES, true)
    case Files(count) => count <= MAX_OPTIONS
    case _ => true
  }

  ghost predicate ConstraintsOk(c: Constraints) {
    && OptionalOk(c.pattern, MAX_TEXT_BYTES)
    && OptionalOk(c.min, MAX_VALUE_BYTES) && OptionalOk(c.max, MAX_VALUE_BYTES) && OptionalOk(c.step, MAX_VALUE_BYTES)
    && |c.accept| <= MAX_ACCEPT_TYPES && TextsOk(c.accept, MAX_TEXT_BYTES, false)
    && (c.minLength.Some? && c.maxLength.Some? ==> c.minLength.value <= c.maxLength.value)
  }

  ghost predicate ValidityOk(v: Validity) {
    && |v.flags| <= MAX_FLAGS && |v.describedBy| <= MAX_REFERENCES
    && (v.valid ==> v.flags == [])
    && OptionalOk(v.message, MAX_MESSAGE_BYTES)
    && TextsOk(v.describedBy, MAX_TEXT_BYTES, false) && Distinct(v.flags)
  }

  ghost predicate ChoiceOk(o: Choice) {
    TextOk(o.value, MAX_VALUE_BYTES, true) && TextOk(o.caption, MAX_TEXT_BYTES, true) && OptionalOk(o.groupLabel, MAX_TEXT_BYTES)
  }

  ghost predicate ChoicesOk(os: seq<Choice>) {
    forall o :: o in os ==> ChoiceOk(o)
  }

  ghost predicate ControlOk(c: Control) {
    && IdOk(c.id)
    && (c.formId.Some? ==> IdOk(c.formId.value)) && (c.groupId.Some? ==> IdOk(c.groupId.value))
    && TargetOk(c.target)
    && OptionalOk(c.accessibleName, MAX_TEXT_BYTES) && OptionalOk(c.caption, MAX_TEXT_BYTES)
    && OptionalOk(c.description, MAX_TEXT_BYTES) && OptionalOk(c.placeholder, MAX_TEXT_BYTES)
    && OptionalOk(c.autocomplete, MAX_TEXT_BYTES)
    && StateOk(c.kind, c.state) && ConstraintsOk(c.constraints) && ValidityOk(c.validity)
    && |c.options| <= MAX_OPTIONS && ChoicesOk(c.options)
    && Distinct(c.operations)
  }

  // ----- the validators -----

  /** The length of a string in bytes. */
  method ByteLength(s: string) returns (n: nat)
    ensures n == |Utf8(s)|
  {
    n := 0;
    for i := 0 to |s|
      invariant n == |Utf8(s[..i])|
    {
      assert s[..i + 1][..i] == s[..i];
      var code := s[i] as int;
      n := n + if code < 0x80 then 1 else if code < 0x800 then 2 else if code < 0x1_0000 then 3 else 4;
    }
    assert s[..|s|] == s;
  }

  /** `validate_text`. */
  method ValidateText(s: string, max: nat, allowEmpty: bool) returns (ok: bool)
    ensures ok <==> TextOk(s, max, allowEmpty)
  {
    if !allowEmpty && s == "" {
      return false;
    }
    var length := ByteLength(s);
    if length > max {
      return false;
    }
    for i := 0 to |s|
      invariant forall k :: 0 <= k < i ==> !IsControl(s[k])
    {
      var code := s[i] as int;
      if code < 0x20 || 0x7F <= code < 0xA0 {
        return false;
      }
    }
    ok := true;
  }

  /** `validate_optional_text`. */
  method ValidateOptional(s: Option<string>, max: nat) returns (ok: bool)
    ensures ok <==> OptionalOk(s, max)
  {
    ok := true;
    if s.Some? {
      ok := ValidateText(s.value, max, false);
    }
  }

  /** `validate_id`, of an id that may be missing. */
  method ValidateOptionalId(s: Option<string>) returns (ok: bool)
    ensures ok <==> (s.Some? ==> IdOk(s.value))
  {
    ok := true;
    if s.Some? {
      ok := ValidateText(s.value, MAX_ID_BYTES, false);
    }
  }

  method ValidateTexts(ts: seq<string>, max: nat, allowEmpty: bool) returns (ok: bool)
    ensures ok <==> TextsOk(ts, max, allowEmpty)
  {
    for i := 0 to |ts|
      invariant TextsOk(ts[..i], max, allowEmpty)
    {
      ok := ValidateText(ts[i], max, allowEmpty);
      if !ok {
        assert ts[i] in ts;
        return;
      }
    }
    ok := true;
  }

  method ValidateAttributes(attributes: map<string, string>) returns (ok: bool)
    ensures ok <==> AttributesOk(attributes)
  {
    var rest := attributes.Keys;
    while rest != {}
      invariant rest <= attributes.Keys
      invariant forall n :: n in attributes && n !in rest ==>
                  TextOk(n, MAX_ID_BYTES, false) && TextOk(attributes[n], MAX_TEXT_BYTES, true)
      decreases |rest|
    {
      var n :| n in rest;
      ok := ValidateText(n, MAX_ID_BYTES, false);
      if !ok {
        return;
      }
      ok := ValidateText(attributes[n], MAX_TEXT_BYTES, true);
      if !ok {
        return;
      }
      rest := rest - {n};
    }
    ok := true;
  }

  method ValidateSegments(gs: seq<Segment>) returns (ok: bool)
    ensures ok <==> SegmentsOk(gs)
  {
    for i := 0 to |gs|
      invariant SegmentsOk(gs[..i])
    {
      assert gs[i] in gs;
      ok := ValidateText(gs[i].role, MAX_ID_BYTES, false);
      if !ok {
        return;
      }
      ok := ValidateText(gs[i].accessibleName, MAX_TEXT_BYTES, true);
      if !ok {
        return;
      }
      if gs[i].ordinal.Some? && gs[i].ordinal.value > MAX_TARGET_ORDINAL {
        return false;
      }
    }
    ok := true;
  }

  /** `validate_target`. */
  method ValidateTarget(target: Option<Target>) returns (ok: bool)
    ensures ok <==> TargetOk(target)
  {
    if target.None? {
      return true;
    }
    var t := target.value;
    ok := ValidateText(t.role, MAX_ID_BYTES, false);
    if !ok {
      return;
    }
    ok := ValidateText(t.accessibleName, MAX_TEXT_BYTES, t.attributes != map[]);
    if !ok {
      return;
    }
    if |t.attributes.Keys| > MAX_TARGET_ATTRIBUTES {
      return false;
    }
    ok := ValidateAttributes(t.attributes);
    if !ok {
      return;
    }
    if t.ordinal.Some? && t.ordinal.value > MAX_TARGET_ORDINAL {
      return false;
    }
    if |t.framePath| > MAX_TARGET_PATH || |t.shadowPath| > MAX_TARGET_PATH {
      return false;
    }
    ok := ValidateSegments(t.framePath);
    if !ok {
      return;
    }
    ok := ValidateSegments(t.shadowPath);
  }

  /** `validate_state`. */
  method ValidateState(kind: Kind, state: ControlState) returns (ok: bool)
    ensures ok <==> StateOk(kind, state)
  {
    match state {
      case TextState(value) =>
        if kind == Password {
          return false;
        }
        ok := ValidateText(value, MAX_VALUE_BYTES, true);
      case Selection(values) =>
        if |values| > MAX_OPTIONS {
          return false;
        }
        ok := ValidateTexts(values, MAX_VALUE_BYTES, true);
      case Files(count) => ok := !(count > MAX_OPTIONS);
      case _ => ok := true;
    }
  }

  /** `validate_constraints`. */
  method ValidateConstraints(c: Constraints) returns (ok: bool)
    ensures ok <==> ConstraintsOk(c)
  {
    ok := ValidateOptional(c.pattern, MAX_TEXT_BYTES);
    if !ok {
      return;
    }
    ok := ValidateOptional(c.min, MAX_VALUE_BYTES);
    if !ok {
      return;
    }
    ok := ValidateOptional(c.max, MAX_VALUE_BYTES);
    if !ok {
      return;
    }
    ok := ValidateOptional(c.step, MAX_VALUE_BYTES);
    if !ok {
      return;
    }
    if |c.accept| > MAX_ACCEPT_TYPES {
      return false;
    }
    ok := ValidateTexts(c.accept, MAX_TEXT_BYTES, false);
    if !ok {
      return;
    }
    if c.minLength.Some? && c.maxLength.Some? && c.minLength.value > c.maxLength.value {
      return false;
    }
  }

  /** `validate_validity`. */
  method ValidateValidity(v: Validity) returns (ok: bool)
    ensures ok <==> ValidityOk(v)
  {
    if |v.flags| > MAX_FLAGS || |v.describedBy| > MAX_REFERENCES {
      return false;
    }
    if v.valid && v.flags != [] {
      return false;
    }
    ok := HasNoRepeats(v.flags);
    if !ok {
      return;
    }
    ok := ValidateOptional(v.message, MAX_MESSAGE_BYTES);
    if !ok {
      return;
    }
    ok := ValidateTexts(v.describedBy, MAX_TEXT_BYTES, false);
  }

  method ValidateChoices(os: seq<Choice>) returns (ok: bool)
    ensures ok <==> ChoicesOk(os)
  {
    for i := 0 to |os|
      invariant ChoicesOk(os[..i])
    {
      assert os[i] in os;
      ok := ValidateText(os[i].value, MAX_VALUE_BYTES, true);
      if !ok {
        return;
      }
      ok := ValidateText(os[i].caption, MAX_TEXT_BYTES, true);
      if !ok {
        return;
      }
      ok := ValidateOptional(os[i].groupLabel, MAX_TEXT_BYTES);
      if !ok {
        return;
      }
    }
    ok := true;
  }

  /** The ids, the target and the captions of `validate_control`. */
  method ValidateNames(c: Control) returns (ok: bool)
    ensures ok <==> (
      && IdOk(c.id)
      && (c.formId.Some? ==> IdOk(c.formId.value)) && (c.groupId.Some? ==> IdOk(c.groupId.value))
      && TargetOk(c.target)
      && OptionalOk(c.accessibleName, MAX_TEXT_BYTES) && OptionalOk(c.caption, MAX_TEXT_BYTES)
      && OptionalOk(c.description, MAX_TEXT_BYTES) && OptionalOk(c.placeholder, MAX_TEXT_BYTES)
      && OptionalOk(c.autocomplete, MAX_TEXT_BYTES))
  {
    ok := ValidateText(c.id, MAX_ID_BYTES, false);
    if !ok {
      return;
    }
    ok := ValidateOptionalId(c.formId);
    if !ok {
      return;
    }
    ok := ValidateOptionalId(c.groupId);
    if !ok {
      return;
    }
    ok := ValidateTarget(c.target);
    if !ok {
      return;
    }
    ok := ValidateOptional(c.accessibleName, MAX_TEXT_BYTES);
    if !ok {
      return;
    }
    ok := ValidateOptional(c.caption, MAX_TEXT_BYTES);
    if !ok {
      return;
    }
    ok := ValidateOptional(c.description, MAX_TEXT_BYTES);
    if !ok {
      return;
    }
    ok := ValidateOptional(c.placeholder, MAX_TEXT_BYTES);
    if !ok {
      return;
    }
    ok := ValidateOptional(c.autocomplete, MAX_TEXT_BYTES);
  }

  /** `validate_control`. */
  method ValidateControl(c: Control) returns (ok: bool)
    ensures ok <==> ControlOk(c)
  {
    ok := ValidateNames(c);
    if !ok {
      return;
    }
    ok := ValidateState(c.kind, c.state);
    if !ok {
      return;
    }
    ok := ValidateConstraints(c.constraints);
    if !ok {
      return;
    }
    ok := ValidateValidity(c.validity);
    if !ok {
      return;
    }
    if |c.options| > MAX_OPTIONS {
      return false;
    }
    ok := ValidateChoices(c.options);
    if !ok {
      return;
    }
    ok := HasNoRepeats(c.operations);
  }

  // ----- what acceptance means, with every bound written out -----

  /** A text with the most bytes it may have. */
  datatype Piece = Piece(value: string, limit: nat, mayBeEmpty: bool)

  /** Short enough in UTF-8, not empty where it must not be, and without control characters. */
  ghost predicate Clean(t: Piece) {
    && |Utf8(t.value)| <= t.limit && (t.value == "" ==> t.mayBeEmpty)
    && forall i :: 0 <= i < |t.value| ==> 0x20 <= t.value[i] as int < 0x7F || 0xA0 <= t.value[i] as int
  }

  function Maybe(s: Option<string>, limit: nat): set<Piece> {
    if s.Some? then {Piece(s.value, limit, false)} else {}
  }

  function AttributeTexts(attributes: map<string, string>): set<Piece> {
    (set n | n in attributes :: Piece(n, 128, false)) + (set n | n in attributes :: Piece(attributes[n], 2048, true))
  }

  function SegmentTexts(gs: seq<Segment>): set<Piece> {
    (set g | g in gs :: Piece(g.role, 128, false)) + (set g | g in gs :: Piece(g.accessibleName, 2048, true))
  }

  function TargetTexts(t: Target): set<Piece> {
    {Piece(t.role, 128, false)} + {Piece(t.accessibleName, 2048, t.attributes != map[])}
    + AttributeTexts(t.attributes) + SegmentTexts(t.framePath) + SegmentTexts(t.shadowPath)
  }

  function ListTexts(ts: seq<string>, limit: nat, mayBeEmpty: bool): set<Piece> {
    set t | t in ts :: Piece(t, limit, mayBeEmpty)
  }

  function StateTexts(state: ControlState): set<Piece> {
    match state
    case TextState(value) => {Piece(value, 4096, true)}
    case Selection(values) => ListTexts(values, 4096, true)
    case _ => {}
  }

  ghost predicate AllClean(ts: set<Piece>) {
    forall t :: t in ts ==> Clean(t)
  }

  lemma CleanIsOk(s: string, max: nat, allowEmpty: bool)
    ensures TextOk(s, max, allowEmpty) <==> Clean(Piece(s, max, allowEmpty))
  {
    forall i | 0 <= i < |s|
      ensures IsControl(s[i]) <==> !(0x20 <= s[i] as int < 0x7F || 0xA0 <= s[i] as int)
    {
    }
  }

  lemma MaybeClean(s: Option<string>, max: nat)
    ensures OptionalOk(s, max) <==> AllClean(Maybe(s, max))
  {
    if s.Some? {
      CleanIsOk(s.value, max, false);
      assert Piece(s.value, max, false) in Maybe(s, max);
    }
  }

  lemma AttributesClean(attributes: map<string, string>)
    ensures AttributesOk(attributes) <==> AllClean(AttributeTexts(attributes))
  {
    forall n | n in attributes
      ensures TextOk(n, 128, false) <==> Clean(Piece(n, 128, false))
      ensures TextOk(attributes[n], 2048, true) <==> Clean(Piece(attributes[n], 2048, true))
      ensures Piece(n, 128, false) in AttributeTexts(attributes)
      ensures Piece(attributes[n], 2048, true) in AttributeTexts(attributes)
    {
      CleanIsOk(n, 128, false);
      CleanIsOk(attributes[n], 2048, true);
    }
  }

  ghost predicate OrdinalsOk(gs: seq<Segment>) {
    forall g :: g in gs && g.ordinal.Some? ==> g.ordinal.value <= 2047
  }

  lemma SegmentsClean(gs: seq<Segment>)
    ensures SegmentsOk(gs) <==> AllClean(SegmentTexts(gs)) && OrdinalsOk(gs)
  {
    forall g | g in gs
      ensures TextOk(g.role, 128, false) <==> Clean(Piece(g.role, 128, false))
      ensures TextOk(g.accessibleName, 2048, true) <==> Clean(Piece(g.accessibleName, 2048, true))
      ensures Piece(g.role, 128, false) in SegmentTexts(gs) && Piece(g.accessibleName, 2048, true) in SegmentTexts(gs)
    {
      CleanIsOk(g.role, 128, false);
      CleanIsOk(g.accessibleName, 2048, true);
    }
  }

  lemma {:induction false} UnionClean(a: set<Piece>, b: set<Piece>)
    ensures AllClean(a + b) <==> AllClean(a) && AllClean(b)
  {
    forall t | t in a || t in b
      ensures t in a + b
    {
    }
  }

  lemma OneClean(s: string, max: nat, allowEmpty: bool)
    ensures AllClean({Piece(s, max, allowEmpty)}) <==> TextOk(s, max, allowEmpty)
  {
    CleanIsOk(s, max, allowEmpty);
    assert Piece(s, max, allowEmpty) in {Piece(s, max, allowEmpty)};
  }

  lemma ListClean(ts: seq<string>, max: nat, allowEmpty: bool)
    ensures AllClean(ListTexts(ts, max, allowEmpty)) <==> TextsOk(ts, max, allowEmpty)
  {
    forall t | t in ts
      ensures TextOk(t, max, allowEmpty) <==> Clean(Piece(t, max, allowEmpty))
      ensures Piece(t, max, allowEmpty) in ListTexts(ts, max, allowEmpty)
    {
      CleanIsOk(t, max, allowEmpty);
    }
  }

  ghost predicate TargetLawful(t: Target) {
    && |t.attributes.Keys| <= 32 && |t.framePath| <= 8 && |t.shadowPath| <= 8
    && (t.ordinal.Some? ==> t.ordinal.value <= 2047) && OrdinalsOk(t.framePath) && OrdinalsOk(t.shadowPath)
    && AllClean(TargetTexts(t))
  }

  lemma TargetExact(target: Option<Target>)
    ensures TargetOk(target) <==> (target.Some? ==> TargetLawful(target.value))
  {
    if target.Some? {
      var t := target.value;
      var roles, names := {Piece(t.role, 128, false)}, {Piece(t.accessibleName, 2048, t.attributes != map[])};
      OneClean(t.role, 128, false);
      OneClean(t.accessibleName, 2048, t.attributes != map[]);
      AttributesClean(t.attributes);
      SegmentsClean(t.framePath);
      SegmentsClean(t.shadowPath);
      UnionClean(roles, names);
      UnionClean(roles + names, AttributeTexts(t.attributes));
      UnionClean(roles + names + AttributeTexts(t.attributes), SegmentTexts(t.framePath));
      UnionClean(roles + names + AttributeTexts(t.attributes) + SegmentTexts(t.framePath), SegmentTexts(t.shadowPath));
    }
  }

  /** No password shows its text; selections and files are bounded. */
  ghost predicate StateLawful(kind: Kind, state: ControlState) {
    && !(kind == Password && state.TextState?)
    && (state.Selection? ==> |state.values| <= 512) && (state.Files? ==> state.count <= 512)
    && AllClean(StateTexts(state))
  }

  lemma StateExact(kind: Kind, state: ControlState)
    ensures StateOk(kind, state) <==> StateLawful(kind, state)
  {
    match state
    case TextState(value) => OneClean(value, 4096, true);
    case Selection(values) => ListClean(values, 4096, true);
    case _ =>
  }

  /** A minimum length is at most the maximum. */
  ghost predicate ConstraintsLawful(c: Constraints) {
    && (c.minLength.Some? && c.maxLength.Some? ==> c.minLength.value <= c.maxLength.value)
    && |c.accept| <= 128
    && AllClean(Maybe(c.pattern, 2048)) && AllClean(Maybe(c.min, 4096)) && AllClean(Maybe(c.max, 4096))
    && AllClean(Maybe(c.step, 4096)) && AllClean(ListTexts(c.accept, 2048, false))
  }

  lemma ConstraintsExact(c: Constraints)
    ensures ConstraintsOk(c) <==> ConstraintsLawful(c)
  {
    MaybeClean(c.pattern, 2048);
    MaybeClean(c.min, 4096);
    MaybeClean(c.max, 4096);
    MaybeClean(c.step, 4096);
    ListClean(c.accept, 2048, false);
  }

  /** A valid control has no flags, and no flag comes twice. */
  ghost predicate ValidityLawful(v: Validity) {
    && (v.valid ==> v.flags == []) && |v.flags| <= 10 && |v.describedBy| <= 512
    && (forall i, j :: 0 <= i < j < |v.flags| ==> v.flags[i] != v.flags[j])
    && AllClean(Maybe(v.message, 1024)) && AllClean(ListTexts(v.describedBy, 2048, false))
  }

  lemma ValidityExact(v: Validity)
    ensures ValidityOk(v) <==> ValidityLawful(v)
  {
    MaybeClean(v.message, 1024);
    ListClean(v.describedBy, 2048, false);
  }

  ghost predicate ChoiceLawful(o: Choice) {
    && AllClean({Piece(o.value, 4096, true)}) && AllClean({Piece(o.caption, 2048, true)})
    && AllClean(Maybe(o.groupLabel, 2048))
  }

  lemma ChoicesExact(os: seq<Choice>)
    ensures ChoicesOk(os) <==> forall o :: o in os ==> ChoiceLawful(o)
  {
    forall o | o in os
      ensures ChoiceOk(o) <==> ChoiceLawful(o)
    {
      OneClean(o.value, 4096, true);
      OneClean(o.caption, 2048, true);
      MaybeClean(o.groupLabel, 2048);
    }
  }

  ghost predicate NamesLawful(c: Control) {
    && AllClean({Piece(c.id, 128, false)}) && AllClean(Maybe(c.formId, 128)) && AllClean(Maybe(c.groupId, 128))
    && AllClean(Maybe(c.accessibleName, 2048)) && AllClean(Maybe(c.caption, 2048)) && AllClean(Maybe(c.description, 2048))
    && AllClean(Maybe(c.placeholder, 2048)) && AllClean(Maybe(c.autocomplete, 2048))
  }

  lemma NamesExact(c: Control)
    ensures NamesLawful(c) <==> (
      && IdOk(c.id) && OptionalOk(c.formId, 128) && OptionalOk(c.groupId, 128)
      && OptionalOk(c.accessibleName, 2048) && OptionalOk(c.caption, 2048) && OptionalOk(c.description, 2048)
      && OptionalOk(c.placeholder, 2048) && OptionalOk(c.autocomplete, 2048))
  {
    OneClean(c.id, 128, false);
    MaybeClean(c.formId, 128);
    MaybeClean(c.groupId, 128);
    MaybeClean(c.accessibleName, 2048);
    MaybeClean(c.caption, 2048);
    MaybeClean(c.description, 2048);
    MaybeClean(c.placeholder, 2048);
    MaybeClean(c.autocomplete, 2048);
  }

  /** What an accepted control keeps to, with every bound written out. */
  ghost predicate Lawful(c: Control) {
    && NamesLawful(c) && (c.target.Some? ==> TargetLawful(c.target.value))
    && StateLawful(c.kind, c.state) && ConstraintsLawful(c.constraints) && ValidityLawful(c.validity)
    && |c.options| <= 512 && (forall o :: o in c.options ==> ChoiceLawful(o))
    && (forall i, j :: 0 <= i < j < |c.operations| ==> c.operations[i] != c.operations[j])
  }

  /** The validator accepts exactly the lawful controls. */
  lemma ControlExact(c: Control)
    ensures ControlOk(c) <==> Lawful(c)
  {
    NamesExact(c);
    TargetExact(c.target);
    StateExact(c.kind, c.state);
    ConstraintsExact(c.constraints);
    ValidityExact(c.validity);
    ChoicesExact(c.options);
  }
}
