/**
 The structural validator of form snapshots as an exact decision procedure: it accepts
 exactly the snapshots that a declarative predicate describes.
 */
module FormSnapshot {
  import opened Prelude
  import opened FormControls

  const SCHEMA_VERSION: nat := 1
  const MAX_FORMS: nat := 64
  const MAX_CONTROLS: nat := 512
  const MAX_GROUPS: nat := 128

  // ----- data -----

  datatype Group = Group(id: string, caption: Option<string>, description: Option<string>, controlIds: seq<string>)

  datatype Form = Form(
    id: string,
    target: Option<Target>,
    accessibleName: Option<string>,
    description: Option<string>,
    groups: seq<Group>,
    controls: seq<Control>,
    submitIds: seq<string>,
    resetIds: seq<string>,
    invalidIds: seq<string>)

  datatype Snapshot = Snapshot(schemaVersion: nat, forms: seq<Form>, unowned: seq<Control>)

  // ----- the declarative predicate -----

  function Ids(cs: seq<Control>): (ids: seq<string>)
    ensures |ids| == |cs|
    ensures forall i :: 0 <= i < |cs| ==> ids[i] == cs[i].id
  {
    seq(|cs|, i requires 0 <= i < |cs| => cs[i].id)
  }

  function GroupIds(gs: seq<Group>): (ids: seq<string>)
    ensures |ids| == |gs|
    ensures forall i :: 0 <= i < |gs| ==> ids[i] == gs[i].id
  {
    seq(|gs|, i requires 0 <= i < |gs| => gs[i].id)
  }

  function FormIds(fs: seq<Form>): (ids: seq<string>)
    ensures |ids| == |fs|
    ensures forall i :: 0 <= i < |fs| ==> ids[i] == fs[i].id
  {
    seq(|fs|, i requires 0 <= i < |fs| => fs[i].id)
  }

  ghost predicate GroupOk(g: Group) {
    && IdOk(g.id) && OptionalOk(g.caption, MAX_TEXT_BYTES) && OptionalOk(g.description, MAX_TEXT_BYTES)
    && |g.controlIds| <= MAX_REFERENCES
  }

  /**
   A control names a group exactly when the group lists the control, every listed id is a
   control of the form and every named group is one of the form's.
   */
  ghost predicate MembershipOk(f: Form) {
    && (forall c, g :: c in f.controls && g in f.groups ==> (c.groupId == Some(g.id) <==> c.id in g.controlIds))
    && (forall g, id :: g in f.groups && id in g.controlIds ==> id in Ids(f.controls))
    && (forall c :: c in f.controls && c.groupId.Some? ==> c.groupId.value in GroupIds(f.groups))
  }

  ghost predicate HasKind(f: Form, id: string, kind: Kind) {
    exists c :: c in f.controls && c.id == id && c.kind == kind
  }

  ghost predicate Resolves(f: Form, ids: seq<string>, kind: Kind) {
    forall id :: id in ids ==> HasKind(f, id, kind)
  }

  ghost predicate ReferencesOk(f: Form) {
    && |f.submitIds| <= MAX_REFERENCES && |f.resetIds| <= MAX_REFERENCES && |f.invalidIds| <= MAX_REFERENCES
    && Distinct(f.submitIds) && Distinct(f.resetIds) && Distinct(f.invalidIds)
    && Resolves(f, f.submitIds, Submit) && Resolves(f, f.resetIds, Reset)
    && forall id :: id in f.invalidIds ==> id in Ids(f.controls)
  }

  ghost predicate ControlsOk(f: Form) {
    && (forall c :: c in f.controls ==> c.formId == Some(f.id) && ControlOk(c))
    && Distinct(Ids(f.controls))
  }

  /** A form that is in order by itself. */
  ghost predicate FormOk(f: Form) {
    && |f.groups| <= MAX_GROUPS && |f.controls| <= MAX_CONTROLS
    && ControlsOk(f)
    && (forall g :: g in f.groups ==> GroupOk(g)) && Distinct(GroupIds(f.groups))
    && MembershipOk(f)
    && ReferencesOk(f)
  }

  ghost predicate HeaderOk(f: Form) {
    && IdOk(f.id) && OptionalOk(f.accessibleName, MAX_TEXT_BYTES) && OptionalOk(f.description, MAX_TEXT_BYTES)
    && TargetOk(f.target)
  }

  /** The ids of all controls of all forms, in order. */
  function OwnedIds(fs: seq<Form>): seq<string> {
    if fs == [] then [] else OwnedIds(fs[..|fs| - 1]) + Ids(fs[|fs| - 1].controls)
  }

  ghost predicate SnapshotOk(s: Snapshot) {
    && s.schemaVersion == SCHEMA_VERSION
    && |s.forms| <= MAX_FORMS
    && |OwnedIds(s.forms) + Ids(s.unowned)| <= MAX_CONTROLS
    && (forall f :: f in s.forms ==> HeaderOk(f) && FormOk(f))
    && (forall c :: c in s.unowned ==> c.formId.None? && c.groupId.None? && ControlOk(c))
    && Distinct(FormIds(s.forms))
    && Distinct(OwnedIds(s.forms) + Ids(s.unowned))
  }

  // ----- the validator -----

  /** Inserting one id after another into a set finds a repetition exactly when there is one. */
  lemma DistinctSnoc<T>(s: seq<T>, x: T)
    ensures Distinct(s + [x]) <==> Distinct(s) && x !in s
  {
    var t := s + [x];
    if Distinct(t) {
      forall i, j | 0 <= i < j < |s|
        ensures s[i] != s[j]
      {
        assert t[i] == s[i] && t[j] == s[j];
      }
      forall i | 0 <= i < |s|
        ensures s[i] != x
      {
        assert t[i] == s[i] && t[|s|] == x;
      }
    }
  }

  lemma {:induction false} DistinctPrefix<T>(s: seq<T>, n: nat)
    requires n <= |s| && Distinct(s)
    ensures Distinct(s[..n])
  {
    forall i, j | 0 <= i < j < n
      ensures s[..n][i] != s[..n][j]
    {
      assert s[..n][i] == s[i] && s[..n][j] == s[j];
    }
  }

  lemma Repeated(ids: seq<string>, i: nat)
    requires i < |ids| && ids[i] in ids[..i]
    ensures !Distinct(ids)
  {
    var j :| 0 <= j < i && ids[j] == ids[i];
  }

  /** The first loop of `validate_form`: `seen` are the ids of the controls before this form's. */
  method ValidateControls(f: Form, seen: set<string>) returns (ok: bool, all: set<string>)
    ensures ok <==> ControlsOk(f) && Elements(Ids(f.controls)) !! seen
    ensures ok ==> all == seen + Elements(Ids(f.controls))
  {
    all := seen;
    var local := {};
    for i := 0 to |f.controls|
      invariant forall c :: c in f.controls[..i] ==> c.formId == Some(f.id) && ControlOk(c)
      invariant Distinct(Ids(f.controls[..i])) && local == Elements(Ids(f.controls[..i]))
      invariant local !! seen && all == seen + local
    {
      var c := f.controls[i];
      var here := Ids(f.controls[..i]);
      assert f.controls[..i + 1] == f.controls[..i] + [c];
      assert Ids(f.controls[..i + 1]) == here + [c.id] == Ids(f.controls)[..i + 1];
      var good := ValidateControl(c);
      if c.formId != Some(f.id) || !good {
        return false, all;
      }
      DistinctSnoc(here, c.id);
      if c.id in local || c.id in all {
        if c.id in here {
          Repeated(Ids(f.controls), i);
        } else {
          assert c.id == Ids(f.controls)[i];
        }
        return false, all;
      }
      local, all := local + {c.id}, all + {c.id};
    }
    assert f.controls[..|f.controls|] == f.controls;
    ok := true;
  }

  // ----- groups -----

  /** What the group loop finds for one listed id. */
  ghost predicate ListedRightly(f: Form, g: Group, id: string) {
    exists c :: c in f.controls && c.id == id && c.groupId == Some(g.id)
  }

  /** What the control loop finds for one control. */
  ghost predicate NamedRightly(f: Form, c: Control) {
    c.groupId.Some? ==> exists g :: g in f.groups && g.id == c.groupId.value && c.id in g.controlIds
  }

  lemma IdsOf(cs: seq<Control>)
    ensures forall c :: c in cs ==> c.id in Ids(cs)
    ensures forall id :: id in Ids(cs) ==> exists c :: c in cs && c.id == id
  {
    forall c | c in cs
      ensures c.id in Ids(cs)
    {
      var i :| 0 <= i < |cs| && cs[i] == c;
      assert Ids(cs)[i] == c.id;
    }
    forall id | id in Ids(cs)
      ensures exists c :: c in cs && c.id == id
    {
      var i :| 0 <= i < |Ids(cs)| && Ids(cs)[i] == id;
      assert cs[i] in cs;
    }
  }

  lemma GroupIdsOf(gs: seq<Group>)
    ensures forall g :: g in gs ==> g.id in GroupIds(gs)
    ensures forall id :: id in GroupIds(gs) ==> exists g :: g in gs && g.id == id
  {
    forall g | g in gs
      ensures g.id in GroupIds(gs)
    {
      var i :| 0 <= i < |gs| && gs[i] == g;
      assert GroupIds(gs)[i] == g.id;
    }
    forall id | id in GroupIds(gs)
      ensures exists g :: g in gs && g.id == id
    {
      var i :| 0 <= i < |GroupIds(gs)| && GroupIds(gs)[i] == id;
      assert gs[i] in gs;
    }
  }

  lemma SameId(f: Form, c: Control, d: Control)
    requires Distinct(Ids(f.controls)) && c in f.controls && d in f.controls && c.id == d.id
    ensures c == d
  {
    var i :| 0 <= i < |f.controls| && f.controls[i] == c;
    var j :| 0 <= j < |f.controls| && f.controls[j] == d;
    assert Ids(f.controls)[i] == Ids(f.controls)[j];
  }

  lemma SameGroupId(f: Form, g: Group, h: Group)
    requires Distinct(GroupIds(f.groups)) && g in f.groups && h in f.groups && g.id == h.id
    ensures g == h
  {
    var i :| 0 <= i < |f.groups| && f.groups[i] == g;
    var j :| 0 <= j < |f.groups| && f.groups[j] == h;
    assert GroupIds(f.groups)[i] == GroupIds(f.groups)[j];
  }

  /** The two loops together check that naming and listing agree. */
  lemma MembershipIff(f: Form)
    requires Distinct(Ids(f.controls)) && Distinct(GroupIds(f.groups))
    ensures MembershipOk(f) <==> (
      && (forall g, id :: g in f.groups && id in g.controlIds ==> ListedRightly(f, g, id))
      && (forall c :: c in f.controls ==> NamedRightly(f, c)))
  {
    IdsOf(f.controls);
    GroupIdsOf(f.groups);
    if MembershipOk(f) {
      forall g, id | g in f.groups && id in g.controlIds
        ensures ListedRightly(f, g, id)
      {
        assert id in Ids(f.controls);
        var c :| c in f.controls && c.id == id;
      }
      forall c | c in f.controls && c.groupId.Some?
        ensures NamedRightly(f, c)
      {
        var g :| g in f.groups && g.id == c.groupId.value;
      }
    } else if (forall g, id :: g in f.groups && id in g.controlIds ==> ListedRightly(f, g, id))
           && (forall c :: c in f.controls ==> NamedRightly(f, c)) {
      forall c, g | c in f.controls && g in f.groups
        ensures c.groupId == Some(g.id) <==> c.id in g.controlIds
      {
        NamedIffListed(f, c, g);
      }
    }
  }

  lemma NamedIffListed(f: Form, c: Control, g: Group)
    requires Distinct(Ids(f.controls)) && Distinct(GroupIds(f.groups))
    requires c in f.controls && g in f.groups
    requires c.id in g.controlIds ==> ListedRightly(f, g, c.id)
    requires NamedRightly(f, c)
    ensures c.groupId == Some(g.id) <==> c.id in g.controlIds
  {
    if c.id in g.controlIds {
      var d :| d in f.controls && d.id == c.id && d.groupId == Some(g.id);
      SameId(f, c, d);
    }
    if c.groupId == Some(g.id) {
      var h :| h in f.groups && h.id == c.groupId.value && c.id in h.controlIds;
      SameGroupId(f, g, h);
    }
  }

  method FindControl(f: Form, id: string) returns (found: Option<Control>)
    ensures found.Some? ==> found.value in f.controls && found.value.id == id
    ensures found.None? ==> id !in Ids(f.controls)
  {
    for i := 0 to |f.controls|
      invariant id !in Ids(f.controls)[..i]
    {
      if f.controls[i].id == id {
        return Some(f.controls[i]);
      }
    }
    found := None;
  }

  method FindGroup(f: Form, id: string) returns (found: Option<Group>)
    ensures found.Some? ==> found.value in f.groups && found.value.id == id
    ensures found.None? ==> id !in GroupIds(f.groups)
  {
    for i := 0 to |f.groups|
      invariant id !in GroupIds(f.groups)[..i]
    {
      if f.groups[i].id == id {
        return Some(f.groups[i]);
      }
    }
    found := None;
  }

  method ValidateListed(f: Form, g: Group) returns (ok: bool)
    requires Distinct(Ids(f.controls))
    ensures ok <==> forall id :: id in g.controlIds ==> ListedRightly(f, g, id)
  {
    for k := 0 to |g.controlIds|
      invariant forall id :: id in g.controlIds[..k] ==> ListedRightly(f, g, id)
    {
      var id := g.controlIds[k];
      var c := FindControl(f, id);
      if c.None? {
        IdsOf(f.controls);
        assert !ListedRightly(f, g, id);
        return false;
      }
      if c.value.groupId != Some(g.id) {
        if d :| d in f.controls && d.id == id && d.groupId == Some(g.id) {
          SameId(f, c.value, d);
        }
        assert !ListedRightly(f, g, id);
        return false;
      }
    }
    ok := true;
  }

  /** What the group loop checks of one group by itself. */
  method ValidateGroup(g: Group) returns (ok: bool)
    ensures ok <==> GroupOk(g)
  {
    ok := ValidateText(g.id, MAX_ID_BYTES, false);
    if !ok {
      return;
    }
    ok := ValidateOptional(g.caption, MAX_TEXT_BYTES);
    if !ok {
      return;
    }
    ok := ValidateOptional(g.description, MAX_TEXT_BYTES);
    if !ok {
      return;
    }
    if |g.controlIds| > MAX_REFERENCES {
      return false;
    }
  }

  method ValidateGroups(f: Form) returns (ok: bool)
    requires Distinct(Ids(f.controls))
    ensures ok <==> (
      && (forall g :: g in f.groups ==> GroupOk(g)) && Distinct(GroupIds(f.groups))
      && (forall g, id :: g in f.groups && id in g.controlIds ==> ListedRightly(f, g, id)))
  {
    var seen := {};
    for i := 0 to |f.groups|
      invariant forall g :: g in f.groups[..i] ==> GroupOk(g)
      invariant Distinct(GroupIds(f.groups[..i])) && seen == Elements(GroupIds(f.groups[..i]))
      invariant forall g, id :: g in f.groups[..i] && id in g.controlIds ==> ListedRightly(f, g, id)
    {
      var g := f.groups[i];
      var here := GroupIds(f.groups[..i]);
      assert f.groups[..i + 1] == f.groups[..i] + [g];
      assert GroupIds(f.groups[..i + 1]) == here + [g.id] == GroupIds(f.groups)[..i + 1];
      DistinctSnoc(here, g.id);
      var good := ValidateGroup(g);
      if !good {
        return false;
      }
      if g.id in seen {
        Repeated(GroupIds(f.groups), i);
        return false;
      }
      seen := seen + {g.id};
      var listed := ValidateListed(f, g);
      if !listed {
        return false;
      }
    }
    assert f.groups[..|f.groups|] == f.groups;
    ok := true;
  }

  method ValidateNamed(f: Form) returns (ok: bool)
    requires Distinct(GroupIds(f.groups))
    ensures ok <==> forall c :: c in f.controls ==> NamedRightly(f, c)
  {
    for i := 0 to |f.controls|
      invariant forall c :: c in f.controls[..i] ==> NamedRightly(f, c)
    {
      var c := f.controls[i];
      if c.groupId.Some? {
        var g := FindGroup(f, c.groupId.value);
        if g.None? {
          GroupIdsOf(f.groups);
          assert !NamedRightly(f, c);
          return false;
        }
        if c.id !in g.value.controlIds {
          if h :| h in f.groups && h.id == c.groupId.value && c.id in h.controlIds {
            SameGroupId(f, g.value, h);
          }
          assert !NamedRightly(f, c);
          return false;
        }
      }
    }
    ok := true;
  }

  // ----- references -----

  method ValidateKind(f: Form, ids: seq<string>, kind: Kind) returns (ok: bool)
    requires Distinct(Ids(f.controls))
    ensures ok <==> Resolves(f, ids, kind)
  {
    for k := 0 to |ids|
      invariant Resolves(f, ids[..k], kind)
    {
      var c := FindControl(f, ids[k]);
      if c.None? {
        IdsOf(f.controls);
        assert !HasKind(f, ids[k], kind);
        return false;
      }
      if c.value.kind != kind {
        if d :| d in f.controls && d.id == ids[k] && d.kind == kind {
          SameId(f, c.value, d);
        }
        assert !HasKind(f, ids[k], kind);
        return false;
      }
      assert HasKind(f, ids[k], kind);
    }
    ok := true;
  }

  method ValidateKnown(f: Form, ids: seq<string>) returns (ok: bool)
    ensures ok <==> forall id :: id in ids ==> id in Ids(f.controls)
  {
    for k := 0 to |ids|
      invariant forall id :: id in ids[..k] ==> id in Ids(f.controls)
    {
      var c := FindControl(f, ids[k]);
      if c.None? {
        return false;
      }
      KnownId(f, c.value);
    }
    ok := true;
  }

  lemma KnownId(f: Form, c: Control)
    requires c in f.controls
    ensures c.id in Ids(f.controls)
  {
    var i :| 0 <= i < |f.controls| && f.controls[i] == c;
    assert Ids(f.controls)[i] == c.id;
  }

  /** `validate_control_references`. */
  method ValidateReferences(f: Form) returns (ok: bool)
    requires Distinct(Ids(f.controls))
    ensures ok <==> ReferencesOk(f)
  {
    if |f.submitIds| > MAX_REFERENCES || |f.resetIds| > MAX_REFERENCES || |f.invalidIds| > MAX_REFERENCES {
      return false;
    }
    var submit := HasNoRepeats(f.submitIds);
    var reset := HasNoRepeats(f.resetIds);
    var invalid := HasNoRepeats(f.invalidIds);
    if !submit || !reset || !invalid {
      return false;
    }
    submit := ValidateKind(f, f.submitIds, Submit);
    reset := ValidateKind(f, f.resetIds, Reset);
    if !submit || !reset {
      return false;
    }
    ok := ValidateKnown(f, f.invalidIds);
  }

  /** `validate_form`: `seen` are the control ids of earlier forms. */
  method ValidateForm(f: Form, seen: set<string>) returns (ok: bool, all: set<string>)
    ensures ok <==> FormOk(f) && Elements(Ids(f.controls)) !! seen
    ensures ok ==> all == seen + Elements(Ids(f.controls))
  {
    all := seen;
    if |f.groups| > MAX_GROUPS || |f.controls| > MAX_CONTROLS {
      return false, all;
    }
    ok, all := ValidateControls(f, seen);
    if !ok {
      return;
    }
    ok := ValidateGroups(f);
    if !ok {
      if Distinct(GroupIds(f.groups)) {
        MembershipIff(f);
      }
      return;
    }
    MembershipIff(f);
    ok := ValidateNamed(f);
    if !ok {
      return;
    }
    ok := ValidateReferences(f);
  }

  // ----- the snapshot -----

  lemma DistinctConcat<T>(a: seq<T>, b: seq<T>)
    ensures Distinct(a + b) <==> Distinct(a) && Distinct(b) && Elements(a) !! Elements(b)
  {
    var s := a + b;
    if Distinct(s) {
      DistinctPrefix(s, |a|);
      assert s[..|a|] == a;
      forall i, j | 0 <= i < j < |b|
        ensures b[i] != b[j]
      {
        assert s[|a| + i] == b[i] && s[|a| + j] == b[j];
      }
      forall i, j | 0 <= i < |a| && 0 <= j < |b|
        ensures a[i] != b[j]
      {
        assert s[i] == a[i] && s[|a| + j] == b[j];
      }
    } else if Distinct(a) && Distinct(b) && Elements(a) !! Elements(b) {
      forall i, j | 0 <= i < j < |s|
        ensures s[i] != s[j]
      {
        if i < |a| <= j {
          assert a[i] in Elements(a) && b[j - |a|] in Elements(b);
        }
      }
    }
  }

  /** A prefix of the forms with repeated control ids makes the whole snapshot repeat one. */
  lemma {:induction false} OwnedPrefix(fs: seq<Form>, n: nat)
    requires n <= |fs| && Distinct(OwnedIds(fs))
    ensures Distinct(OwnedIds(fs[..n]))
    decreases |fs|
  {
    if n < |fs| {
      DistinctConcat(OwnedIds(fs[..|fs| - 1]), Ids(fs[|fs| - 1].controls));
      OwnedPrefix(fs[..|fs| - 1], n);
      assert fs[..|fs| - 1][..n] == fs[..n];
    } else {
      assert fs[..n] == fs;
    }
  }

  method CountControls(s: Snapshot) returns (n: nat)
    ensures n == |OwnedIds(s.forms) + Ids(s.unowned)|
  {
    n := |s.unowned|;
    for i := 0 to |s.forms|
      invariant n == |OwnedIds(s.forms[..i])| + |s.unowned|
    {
      assert s.forms[..i + 1][..i] == s.forms[..i];
      n := n + |s.forms[i].controls|;
    }
    assert s.forms[..|s.forms|] == s.forms;
  }

  ghost predicate FormsOk(fs: seq<Form>) {
    && (forall f :: f in fs ==> HeaderOk(f) && FormOk(f))
    && Distinct(FormIds(fs)) && Distinct(OwnedIds(fs))
  }

  lemma FormsPrefix(fs: seq<Form>, n: nat)
    requires n <= |fs| && FormsOk(fs)
    ensures FormsOk(fs[..n])
  {
    DistinctPrefix(FormIds(fs), n);
    assert FormIds(fs[..n]) == FormIds(fs)[..n];
    OwnedPrefix(fs, n);
  }

  /** What one more form must satisfy. */
  lemma FormsSnoc(fs: seq<Form>, i: nat)
    requires i < |fs| && FormsOk(fs[..i])
    ensures Elements(OwnedIds(fs[..i + 1])) == Elements(OwnedIds(fs[..i])) + Elements(Ids(fs[i].controls))
    ensures Elements(FormIds(fs[..i + 1])) == Elements(FormIds(fs[..i])) + {fs[i].id}
    ensures FormsOk(fs[..i + 1]) <==> (
      && HeaderOk(fs[i]) && FormOk(fs[i]) && fs[i].id !in Elements(FormIds(fs[..i]))
      && Elements(Ids(fs[i].controls)) !! Elements(OwnedIds(fs[..i])))
  {
    var f := fs[i];
    OneMoreForm(fs, i);
    DistinctSnoc(FormIds(fs[..i]), f.id);
    DistinctConcat(OwnedIds(fs[..i]), Ids(f.controls));
  }

  lemma OneMoreForm(fs: seq<Form>, i: nat)
    requires i < |fs|
    ensures fs[..i + 1] == fs[..i] + [fs[i]]
    ensures FormIds(fs[..i + 1]) == FormIds(fs[..i]) + [fs[i].id]
    ensures OwnedIds(fs[..i + 1]) == OwnedIds(fs[..i]) + Ids(fs[i].controls)
  {
    assert fs[..i + 1] == fs[..i] + [fs[i]] && fs[..i + 1][..i] == fs[..i];
  }

  method ValidateHeader(f: Form) returns (ok: bool)
    ensures ok <==> HeaderOk(f)
  {
    ok := ValidateText(f.id, MAX_ID_BYTES, false);
    if !ok {
      return;
    }
    ok := ValidateOptional(f.accessibleName, MAX_TEXT_BYTES);
    if !ok {
      return;
    }
    ok := ValidateOptional(f.description, MAX_TEXT_BYTES);
    if !ok {
      return;
    }
    ok := ValidateTarget(f.target);
  }

  /** The form loop of `validate`. */
  method ValidateForms(fs: seq<Form>) returns (ok: bool, all: set<string>)
    ensures ok <==> FormsOk(fs)
    ensures ok ==> all == Elements(OwnedIds(fs))
  {
    var ids: set<string> := {};
    all := {};
    for i := 0 to |fs|
      invariant FormsOk(fs[..i])
      invariant ids == Elements(FormIds(fs[..i])) && all == Elements(OwnedIds(fs[..i]))
    {
      FormsSnoc(fs, i);
      if FormsOk(fs) {
        FormsPrefix(fs, i + 1);
      }
      var good := ValidateHeader(fs[i]);
      if !good || fs[i].id in ids {
        return false, all;
      }
      ids := ids + {fs[i].id};
      good, all := ValidateForm(fs[i], all);
      if !good {
        return false, all;
      }
    }
    assert fs[..|fs|] == fs;
    ok := true;
  }

  ghost predicate UnownedOk(cs: seq<Control>) {
    forall c :: c in cs ==> c.formId.None? && c.groupId.None? && ControlOk(c)
  }

  /** The loop over controls outside any form. */
  method ValidateUnowned(cs: seq<Control>, owned: set<string>) returns (ok: bool)
    ensures ok <==> UnownedOk(cs) && Distinct(Ids(cs)) && Elements(Ids(cs)) !! owned
  {
    var all := owned;
    for i := 0 to |cs|
      invariant UnownedOk(cs[..i])
      invariant Distinct(Ids(cs[..i])) && Elements(Ids(cs[..i])) !! owned && all == owned + Elements(Ids(cs[..i]))
    {
      var c := cs[i];
      var here := Ids(cs[..i]);
      assert cs[..i + 1] == cs[..i] + [c];
      assert Ids(cs[..i + 1]) == here + [c.id] == Ids(cs)[..i + 1];
      if c.formId.Some? || c.groupId.Some? {
        return false;
      }
      var good := ValidateControl(c);
      if !good {
        return false;
      }
      DistinctSnoc(here, c.id);
      if c.id in all {
        if c.id in here {
          Repeated(Ids(cs), i);
        } else {
          assert c.id == Ids(cs)[i];
        }
        return false;
      }
      all := all + {c.id};
    }
    assert cs[..|cs|] == cs;
    ok := true;
  }

  /** The control is somewhere in the snapshot. */
  ghost predicate Within(s: Snapshot, c: Control) {
    c in s.unowned || exists f :: f in s.forms && c in f.controls
  }

  ghost predicate GroupLawful(g: Group) {
    && AllClean({Piece(g.id, 128, false)}) && AllClean(Maybe(g.caption, 2048)) && AllClean(Maybe(g.description, 2048))
    && |g.controlIds| <= 512
  }

  ghost predicate HeaderLawful(f: Form) {
    && AllClean({Piece(f.id, 128, false)}) && AllClean(Maybe(f.accessibleName, 2048))
    && AllClean(Maybe(f.description, 2048)) && (f.target.Some? ==> TargetLawful(f.target.value))
  }

  /** The submit and reset lists name controls of the form of that kind, and the sizes are bounded. */
  ghost predicate ListsLawful(f: Form) {
    && |f.groups| <= 128 && |f.controls| <= 512
    && |f.submitIds| <= 512 && |f.resetIds| <= 512 && |f.invalidIds| <= 512
    && (forall id :: id in f.submitIds ==> exists c :: c in f.controls && c.id == id && c.kind.Submit?)
    && (forall id :: id in f.resetIds ==> exists c :: c in f.controls && c.id == id && c.kind.Reset?)
    && (forall id :: id in f.invalidIds ==> exists c :: c in f.controls && c.id == id)
  }

  lemma ListsExact(f: Form)
    requires FormOk(f)
    ensures ListsLawful(f)
  {
    forall id | id in f.submitIds
      ensures exists c :: c in f.controls && c.id == id && c.kind.Submit?
    {
      assert HasKind(f, id, Submit);
    }
    forall id | id in f.resetIds
      ensures exists c :: c in f.controls && c.id == id && c.kind.Reset?
    {
      assert HasKind(f, id, Reset);
    }
    IdsOf(f.controls);
  }

  lemma GroupExact(g: Group)
    ensures GroupOk(g) <==> GroupLawful(g)
  {
    OneClean(g.id, 128, false);
    MaybeClean(g.caption, 2048);
    MaybeClean(g.description, 2048);
  }

  lemma HeaderExact(f: Form)
    ensures HeaderOk(f) <==> HeaderLawful(f)
  {
    OneClean(f.id, 128, false);
    MaybeClean(f.accessibleName, 2048);
    MaybeClean(f.description, 2048);
    TargetExact(f.target);
  }

  lemma AllLawful(s: Snapshot)
    requires SnapshotOk(s)
    ensures forall c :: Within(s, c) ==> Lawful(c)
    ensures forall f :: f in s.forms ==> HeaderLawful(f) && ListsLawful(f)
    ensures forall f, g :: f in s.forms && g in f.groups ==> GroupLawful(g)
  {
    forall c | Within(s, c)
      ensures Lawful(c)
    {
      ControlExact(c);
    }
    forall f | f in s.forms
      ensures HeaderLawful(f) && ListsLawful(f)
    {
      HeaderExact(f);
      ListsExact(f);
    }
    forall f, g | f in s.forms && g in f.groups
      ensures GroupLawful(g)
    {
      GroupExact(g);
    }
  }

  /**
   `FormSnapshot::validate` accepts exactly the well-formed snapshots. Every control of an
   accepted one is lawful, wherever it is, and so are its forms' headers, lists and groups.
   */
  method Validate(s: Snapshot) returns (ok: bool)
    ensures ok <==> SnapshotOk(s)
    ensures ok ==> forall c :: Within(s, c) ==> Lawful(c)
    ensures ok ==> s.schemaVersion == 1 && |s.forms| <= 64
    ensures ok ==> forall f :: f in s.forms ==> HeaderLawful(f) && ListsLawful(f)
    ensures ok ==> forall f, g :: f in s.forms && g in f.groups ==> GroupLawful(g)
  {
    if s.schemaVersion != SCHEMA_VERSION || |s.forms| > MAX_FORMS {
      return false;
    }
    var count := CountControls(s);
    if count > MAX_CONTROLS {
      return false;
    }
    DistinctConcat(OwnedIds(s.forms), Ids(s.unowned));
    var owned;
    ok, owned := ValidateForms(s.forms);
    if !ok {
      return;
    }
    ok := ValidateUnowned(s.unowned, owned);
    if ok {
      AllLawful(s);
    }
  }
}
