/**
 * The generic JSON projection of typed entities (`JSONMixin`).
 *
 * An entity is given by its explicit attribute list (name, value), in
 * declaration order. `JsonDict` (`__jsondict__`) keeps the attributes the
 * two flags do not hide and projects each kept value: dates and datetimes
 * become ISO 8601 text, nested entities are projected with the same flags,
 * lists and dicts element by element, and scalars pass through.
 */
module Projection {
  import opened Options
  import opened Json
  import opened IsoFormat

  /** An attribute value of a typed entity. */
  datatype AVal =
    | VNone
    | VBool(b: bool)
    | VInt(i: int)
    | VFloat(r: real)
    | VStr(s: string)
    | VDate(d: Date)
    | VDateTime(t: DateTime)
    | VList(items: seq<AVal>)
    | VDict(entries: seq<(string, AVal)>)
    | VObj(attrs: seq<(string, AVal)>)

  type Attrs = seq<(string, AVal)>

  /** Every date and datetime inside `v` is in range, so that it can be formatted. */
  predicate WellFormed(v: AVal)
    decreases v
  {
    match v
    case VDate(d) => ValidDate(d)
    case VDateTime(t) => ValidDateTime(t)
    case VList(items) => forall i :: 0 <= i < |items| ==> WellFormed(items[i])
    case VDict(entries) => forall i :: 0 <= i < |entries| ==> WellFormed(entries[i].1)
    case VObj(attrs) => forall i :: 0 <= i < |attrs| ==> WellFormed(attrs[i].1)
    case _ => true
  }

  predicate IsEmptyContainer(v: AVal) {
    (v.VList? && |v.items| == 0) || (v.VDict? && |v.entries| == 0)
  }

  /** Whether an attribute is left out of its entity's projection. */
  predicate Hidden(v: AVal, hideNone: bool, hideEmpty: bool) {
    (hideNone && v == VNone) || (hideEmpty && IsEmptyContainer(v))
  }

  /** The attributes that are not hidden, in declaration order. */
  function Shown(attrs: Attrs, hideNone: bool, hideEmpty: bool): (r: Attrs)
    ensures |r| <= |attrs|
    ensures forall p :: p in r ==> p in attrs && !Hidden(p.1, hideNone, hideEmpty)
    ensures forall p :: p in attrs && !Hidden(p.1, hideNone, hideEmpty) ==> p in r
  {
    if |attrs| == 0 then []
    else
      var rest := Shown(attrs[1..], hideNone, hideEmpty);
      if Hidden(attrs[0].1, hideNone, hideEmpty) then rest else [attrs[0]] + rest
  }

  function Project(v: AVal, hideNone: bool, hideEmpty: bool): (j: Json)
    requires WellFormed(v)
    ensures j == JNull <==> v == VNone
    ensures j.JArr? <==> v.VList?
    ensures v.VList? ==> |j.items| == |v.items|
    ensures v.VDict? ==> j.JObj? && |j.fields| == |v.entries|
    ensures v.VDict? ==> forall i :: 0 <= i < |v.entries| ==> j.fields[i].0 == v.entries[i].0
    decreases v
  {
    match v
    case VNone => JNull
    case VBool(b) => JBool(b)
    case VInt(i) => JInt(i)
    case VFloat(r) => JFloat(r)
    case VStr(s) => JStr(s)
    case VDate(d) => JStr(FormatDate(d))
    case VDateTime(t) => JStr(FormatDateTime(t))
    case VList(items) =>
      JArr(seq(|items|, i requires 0 <= i < |items| => Project(items[i], hideNone, hideEmpty)))
    case VDict(entries) =>
      JObj(seq(|entries|, i requires 0 <= i < |entries| =>
        (entries[i].0, Project(entries[i].1, hideNone, hideEmpty))))
    case VObj(attrs) =>
      var shown := Shown(attrs, hideNone, hideEmpty);
      JObj(seq(|shown|, i requires 0 <= i < |shown| =>
        (shown[i].0, Project(shown[i].1, hideNone, hideEmpty))))
  }

  /** `__jsondict__(hide_none, hide_empty)` of an entity with attributes `attrs`. */
  function JsonDict(attrs: Attrs, hideNone: bool, hideEmpty: bool): (r: Payload)
    requires WellFormed(VObj(attrs))
    ensures |r| <= |attrs|
    ensures hideNone ==> forall i :: 0 <= i < |r| ==> r[i].1 != JNull
    ensures hideEmpty ==> forall i :: 0 <= i < |r| ==> r[i].1 != JArr([])
    ensures !hideNone && !hideEmpty ==> |r| == |attrs| && forall i :: 0 <= i < |r| ==> r[i].0 == attrs[i].0
  {
    NothingHidden(attrs);
    Project(VObj(attrs), hideNone, hideEmpty).fields
  }

  lemma {:induction false} NothingHidden(attrs: Attrs)
    ensures Shown(attrs, false, false) == attrs
  {
    if |attrs| > 0 {
      NothingHidden(attrs[1..]);
    }
  }

  /** `as_dict_for_json()`: the projection with both flags at their defaults. */
  function AsDictForJson(attrs: Attrs): (r: Payload)
    requires WellFormed(VObj(attrs))
    ensures r == JsonDict(attrs, true, true)
  {
    Project(VObj(attrs), true, true).fields
  }

  lemma {:induction false} ShownAppend(a: Attrs, b: Attrs, hideNone: bool, hideEmpty: bool)
    ensures Shown(a + b, hideNone, hideEmpty) == Shown(a, hideNone, hideEmpty) + Shown(b, hideNone, hideEmpty)
  {
    if |a| == 0 {
      assert a + b == b;
    } else {
      assert (a + b)[0] == a[0];
      assert (a + b)[1..] == a[1..] + b;
      ShownAppend(a[1..], b, hideNone, hideEmpty);
    }
  }

  predicate AllWellFormed(attrs: Attrs) {
    forall i :: 0 <= i < |attrs| ==> WellFormed(attrs[i].1)
  }

  /** Projects every value of an attribute list, hiding nothing. */
  function ProjectEach(attrs: Attrs, hideNone: bool, hideEmpty: bool): (r: Payload)
    requires AllWellFormed(attrs)
    ensures |r| == |attrs|
  {
    seq(|attrs|, i requires 0 <= i < |attrs| => (attrs[i].0, Project(attrs[i].1, hideNone, hideEmpty)))
  }

  lemma ShownWellFormed(attrs: Attrs, hideNone: bool, hideEmpty: bool)
    requires AllWellFormed(attrs)
    ensures AllWellFormed(Shown(attrs, hideNone, hideEmpty))
  {
    var s := Shown(attrs, hideNone, hideEmpty);
    forall i | 0 <= i < |s| ensures WellFormed(s[i].1) {
      assert s[i] in attrs;
    }
  }

  /** An entity's projection: its shown attributes, each projected. */
  lemma JsonDictIsProjectEachShown(attrs: Attrs, hideNone: bool, hideEmpty: bool)
    requires WellFormed(VObj(attrs))
    ensures AllWellFormed(Shown(attrs, hideNone, hideEmpty))
    ensures JsonDict(attrs, hideNone, hideEmpty) == ProjectEach(Shown(attrs, hideNone, hideEmpty), hideNone, hideEmpty)
  {
    ShownWellFormed(attrs, hideNone, hideEmpty);
  }

  lemma ProjectEachAppend(a: Attrs, b: Attrs, hideNone: bool, hideEmpty: bool)
    requires AllWellFormed(a) && AllWellFormed(b)
    ensures AllWellFormed(a + b)
    ensures ProjectEach(a + b, hideNone, hideEmpty) == ProjectEach(a, hideNone, hideEmpty) + ProjectEach(b, hideNone, hideEmpty)
  {
    forall i | 0 <= i < |a + b| ensures WellFormed((a + b)[i].1) {
      if i < |a| { assert (a + b)[i] == a[i]; } else { assert (a + b)[i] == b[i - |a|]; }
    }
  }

  /** The projection of an entity is the concatenation of its attributes' projections. */
  lemma JsonDictAppend(a: Attrs, b: Attrs, hideNone: bool, hideEmpty: bool)
    requires WellFormed(VObj(a)) && WellFormed(VObj(b))
    ensures WellFormed(VObj(a + b))
    ensures JsonDict(a + b, hideNone, hideEmpty) == JsonDict(a, hideNone, hideEmpty) + JsonDict(b, hideNone, hideEmpty)
  {
    ProjectEachAppend(a, b, hideNone, hideEmpty);
    ShownAppend(a, b, hideNone, hideEmpty);
    JsonDictIsProjectEachShown(a, hideNone, hideEmpty);
    JsonDictIsProjectEachShown(b, hideNone, hideEmpty);
    JsonDictIsProjectEachShown(a + b, hideNone, hideEmpty);
    ProjectEachAppend(Shown(a, hideNone, hideEmpty), Shown(b, hideNone, hideEmpty), hideNone, hideEmpty);
  }

  /**
   * The rule for one attribute: it is left out when hidden, and otherwise
   * appears under its own name with its projected value.
   */
  lemma JsonDictSingle(name: string, v: AVal, hideNone: bool, hideEmpty: bool)
    requires WellFormed(v)
    ensures WellFormed(VObj([(name, v)]))
    ensures JsonDict([(name, v)], hideNone, hideEmpty)
            == if Hidden(v, hideNone, hideEmpty) then [] else [(name, Project(v, hideNone, hideEmpty))]
  {
    assert [(name, v)][1..] == [];
  }

  /** An entity nested under an attribute is projected by the same operation, with the same flags. */
  lemma NestedEntity(name: string, sub: Attrs, hideNone: bool, hideEmpty: bool)
    requires WellFormed(VObj(sub))
    ensures WellFormed(VObj([(name, VObj(sub))]))
    ensures JsonDict([(name, VObj(sub))], hideNone, hideEmpty) == [(name, JObj(JsonDict(sub, hideNone, hideEmpty)))]
  {
    JsonDictSingle(name, VObj(sub), hideNone, hideEmpty);
  }

  /** A list is projected element by element, in order, with nothing hidden. */
  lemma ProjectList(items: seq<AVal>, hideNone: bool, hideEmpty: bool)
    requires WellFormed(VList(items))
    ensures forall i :: 0 <= i < |items| ==> WellFormed(items[i])
    ensures var j := Project(VList(items), hideNone, hideEmpty);
      |j.items| == |items| &&
      forall i :: 0 <= i < |items| ==> j.items[i] == Project(items[i], hideNone, hideEmpty)
  {
  }

  /** A dict is projected value by value, keeping every key in its place, with nothing hidden. */
  lemma ProjectDict(entries: seq<(string, AVal)>, hideNone: bool, hideEmpty: bool)
    requires WellFormed(VDict(entries))
    ensures forall i :: 0 <= i < |entries| ==> WellFormed(entries[i].1)
    ensures var j := Project(VDict(entries), hideNone, hideEmpty);
      j.JObj? && |j.fields| == |entries| &&
      forall i :: 0 <= i < |entries| ==> j.fields[i] == (entries[i].0, Project(entries[i].1, hideNone, hideEmpty))
  {
  }

  /** The test entity `Foo`, whose single attribute is `bar`. */
  function Foo(bar: AVal): Attrs {
    [("bar", bar)]
  }

  /** `Foo(Foo('hello world!'))` projects to `{'bar': {'bar': 'hello world!'}}`. */
  lemma SubJsonExample()
    ensures WellFormed(VObj(Foo(VObj(Foo(VStr("hello world!"))))))
    ensures JsonDict(Foo(VObj(Foo(VStr("hello world!")))), true, true)
            == [("bar", JObj([("bar", JStr("hello world!"))]))]
  {
    JsonDictSingle("bar", VStr("hello world!"), true, true);
    NestedEntity("bar", Foo(VStr("hello world!")), true, true);
  }

  /** The projection of an entity value is its attribute mapping. */
  lemma ProjectEntity(sub: Attrs, hideNone: bool, hideEmpty: bool)
    requires WellFormed(VObj(sub))
    ensures Project(VObj(sub), hideNone, hideEmpty) == JObj(JsonDict(sub, hideNone, hideEmpty))
  {
  }

  /** `Foo(text)` as a value projects to `{'bar': text}`. */
  lemma FooOfText(text: string)
    ensures WellFormed(VObj(Foo(VStr(text))))
    ensures Project(VObj(Foo(VStr(text))), true, true) == JObj([("bar", JStr(text))])
  {
    JsonDictSingle("bar", VStr(text), true, true);
    ProjectEntity(Foo(VStr(text)), true, true);
  }

  /** `Foo([Foo('hello'), Foo('world!')])` projects to a list of two projected entities, in order. */
  lemma ListOfSubobjsExample()
    ensures WellFormed(VObj(Foo(VList([VObj(Foo(VStr("hello"))), VObj(Foo(VStr("world!")))]))))
    ensures JsonDict(Foo(VList([VObj(Foo(VStr("hello"))), VObj(Foo(VStr("world!")))])), true, true)
            == [("bar", JArr([JObj([("bar", JStr("hello"))]), JObj([("bar", JStr("world!"))])]))]
  {
    var items := [VObj(Foo(VStr("hello"))), VObj(Foo(VStr("world!")))];
    FooOfText("hello");
    FooOfText("world!");
    ProjectList(items, true, true);
    assert Project(VList(items), true, true) == JArr([JObj([("bar", JStr("hello"))]), JObj([("bar", JStr("world!"))])]);
    JsonDictSingle("bar", VList(items), true, true);
  }

  /** `Foo({'first': Foo('hello'), 'second': Foo('world!')})` keeps both keys, each value projected. */
  lemma DictOfSubobjsExample()
    ensures WellFormed(VObj(Foo(VDict([("first", VObj(Foo(VStr("hello")))), ("second", VObj(Foo(VStr("world!"))))]))))
    ensures JsonDict(Foo(VDict([("first", VObj(Foo(VStr("hello")))), ("second", VObj(Foo(VStr("world!"))))])), true, true)
            == [("bar", JObj([("first", JObj([("bar", JStr("hello"))])), ("second", JObj([("bar", JStr("world!"))]))]))]
  {
    var entries := [("first", VObj(Foo(VStr("hello")))), ("second", VObj(Foo(VStr("world!"))))];
    FooOfText("hello");
    FooOfText("world!");
    ProjectDict(entries, true, true);
    assert Project(VDict(entries), true, true)
        == JObj([("first", JObj([("bar", JStr("hello"))])), ("second", JObj([("bar", JStr("world!"))]))]);
    JsonDictSingle("bar", VDict(entries), true, true);
  }

  /** A date projects to text that parses back to that date; likewise a datetime. */
  lemma TemporalProjection(d: Date, t: DateTime, hideNone: bool, hideEmpty: bool)
    requires ValidDate(d) && ValidDateTime(t)
    ensures Project(VDate(d), hideNone, hideEmpty).JStr?
    ensures ParseDate(Project(VDate(d), hideNone, hideEmpty).s) == Some(d)
    ensures Project(VDateTime(t), hideNone, hideEmpty).JStr?
    ensures ParseDateTime(Project(VDateTime(t), hideNone, hideEmpty).s) == Some(t)
  {
    DateRoundTrip(d);
    DateTimeRoundTrip(t);
  }

  /** A JSON value read back as an attribute value: mappings become dicts. */
  function Embed(j: Json): (v: AVal)
    ensures WellFormed(v)
    decreases j
  {
    match j
    case JNull => VNone
    case JBool(b) => VBool(b)
    case JInt(i) => VInt(i)
    case JFloat(r) => VFloat(r)
    case JStr(s) => VStr(s)
    case JArr(items) => VList(seq(|items|, i requires 0 <= i < |items| => Embed(items[i])))
    case JObj(fields) => VDict(seq(|fields|, i requires 0 <= i < |fields| => (fields[i].0, Embed(fields[i].1))))
  }

  /**
   * Inside lists and dicts nothing is hidden: projecting an embedded JSON
   * value gives back that value, whatever the flags.
   */
  lemma {:induction false} ProjectEmbed(j: Json, hideNone: bool, hideEmpty: bool)
    ensures Project(Embed(j), hideNone, hideEmpty) == j
    decreases j
  {
    match j
    case JArr(items) =>
      var p := Project(Embed(j), hideNone, hideEmpty);
      forall i | 0 <= i < |items| ensures p.items[i] == items[i] {
        ProjectEmbed(items[i], hideNone, hideEmpty);
      }
    case JObj(fields) =>
      var p := Project(Embed(j), hideNone, hideEmpty);
      forall i | 0 <= i < |fields| ensures p.fields[i] == fields[i] {
        ProjectEmbed(fields[i].1, hideNone, hideEmpty);
      }
    case _ =>
  }

  /** Values without dates and without nested entities: projection loses nothing. */
  predicate Plain(v: AVal)
    decreases v
  {
    match v
    case VDate(_) => false
    case VDateTime(_) => false
    case VObj(_) => false
    case VList(items) => forall i :: 0 <= i < |items| ==> Plain(items[i])
    case VDict(entries) => forall i :: 0 <= i < |entries| ==> Plain(entries[i].1)
    case _ => true
  }

  /** Scalars, lists and dicts of scalars pass through the projection unchanged. */
  lemma {:induction false} EmbedProject(v: AVal, hideNone: bool, hideEmpty: bool)
    requires WellFormed(v) && Plain(v)
    ensures Embed(Project(v, hideNone, hideEmpty)) == v
    decreases v
  {
    match v
    case VList(items) =>
      var e := Embed(Project(v, hideNone, hideEmpty));
      forall i | 0 <= i < |items| ensures e.items[i] == items[i] {
        EmbedProject(items[i], hideNone, hideEmpty);
      }
    case VDict(entries) =>
      var e := Embed(Project(v, hideNone, hideEmpty));
      forall i | 0 <= i < |entries| ensures e.entries[i] == entries[i] {
        EmbedProject(entries[i].1, hideNone, hideEmpty);
      }
    case _ =>
  }

  /** The flag behaviour on a one-attribute entity `Foo(bar)`. */
  lemma OneAttributeCases()
    ensures JsonDict([("bar", VNone)], true, true) == []
    ensures JsonDict([("bar", VList([]))], true, true) == []
    ensures JsonDict([("bar", VNone)], false, true) == [("bar", JNull)]
    ensures JsonDict([("bar", VList([]))], false, true) == []
    ensures JsonDict([("bar", VNone)], true, false) == []
    ensures JsonDict([("bar", VList([]))], true, false) == [("bar", JArr([]))]
  {
    JsonDictSingle("bar", VNone, true, true);
    JsonDictSingle("bar", VList([]), true, true);
    JsonDictSingle("bar", VNone, false, true);
    JsonDictSingle("bar", VList([]), false, true);
    JsonDictSingle("bar", VNone, true, false);
    JsonDictSingle("bar", VList([]), true, false);
  }
}
