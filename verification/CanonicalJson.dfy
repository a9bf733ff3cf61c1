/**
 * The canonical form of plain values that context hashes are taken over: object
 * keys sorted, undefined members dropped, undefined array entries read as null.
 *
 * The code fills its result by assignment, and an assignment to the key
 * "__proto__" makes no member: it sets the prototype of the result, or does
 * nothing. `Built` is the object the code makes, prototype included; `Canon` is
 * what is written of it and hashed.
 */
module CanonicalJson {
  import opened Prelude
  import opened Sorting
  import opened Text

  /**
   * `NonFinite` and `Unsupported` stand for values that are refused. An object
   * lists its own members in insertion order; `Derived` is one whose prototype is
   * null or another value instead of the usual one.
   */
  datatype Value =
    | Undefined
    | Null
    | Bool(b: bool)
    | Num(n: real)
    | Str(s: string)
    | NonFinite
    | Unsupported
    | Arr(items: seq<Value>)
    | Obj(members: seq<Member>)
    | Derived(proto: Value, members: seq<Member>)

  datatype Member = Member(key: string, value: Value)

  function KeyOf(): Member -> string {
    (m: Member) => m.key
  }

  const PROTO := "__proto__"

  predicate IsObject(v: Value) {
    v.Obj? || v.Derived?
  }

  /** Nothing refused anywhere inside, and each object has each key once. */
  ghost predicate Plain(v: Value)
    decreases v
  {
    match v
    case NonFinite => false
    case Unsupported => false
    case Arr(items) => forall i | 0 <= i < |items| :: Plain(items[i])
    case Obj(members) => DistinctBy(members, KeyOf()) && forall i | 0 <= i < |members| :: Plain(members[i].value)
    case Derived(proto, members) =>
      proto == Null && DistinctBy(members, KeyOf()) && forall i | 0 <= i < |members| :: Plain(members[i].value)
    case _ => true
  }

  ghost predicate AllPlain(members: seq<Member>) {
    forall i | 0 <= i < |members| :: Plain(members[i].value)
  }

  predicate KeyBefore(a: Member, b: Member) {
    TextBefore(a.key, b.key)
  }

  function OrNull(v: Value): Value {
    if v == Undefined then Null else v
  }

  /** What is written of the canonical form of a plain value. */
  function Canon(v: Value): Value
    decreases v
  {
    match v
    case Arr(items) => Arr(CanonItems(items))
    case Obj(members) => Obj(Sort(CanonMembers(members), KeyBefore))
    case Derived(_, members) => Obj(Sort(CanonMembers(members), KeyBefore))
    case _ => v
  }

  function CanonItems(items: seq<Value>): (r: seq<Value>)
    ensures |r| == |items|
    decreases items
  {
    if items == [] then [] else CanonItems(items[..|items| - 1]) + [OrNull(Canon(items[|items| - 1]))]
  }

  function CanonMembers(members: seq<Member>): seq<Member>
    decreases members
  {
    if members == [] then []
    else
      var last := members[|members| - 1];
      CanonMembers(members[..|members| - 1])
      + if last.key == PROTO || Canon(last.value) == Undefined then [] else [Member(last.key, Canon(last.value))]
  }

  // ----- what the pieces are

  lemma {:induction false} ItemsAt(items: seq<Value>, i: nat)
    requires i < |items|
    ensures CanonItems(items)[i] == OrNull(Canon(items[i]))
  {
    if i < |items| - 1 { ItemsAt(items[..|items| - 1], i); }
  }

  predicate Kept(m: Member) {
    m.key != PROTO && Canon(m.value) != Undefined
  }

  function CanonOf(m: Member): Member {
    Member(m.key, Canon(m.value))
  }

  /** Every canonical member comes from one that was kept. */
  lemma {:induction false} Origin(members: seq<Member>, c: Member) returns (i: nat)
    requires c in CanonMembers(members)
    ensures i < |members| && Kept(members[i]) && c == CanonOf(members[i])
  {
    var front := members[..|members| - 1];
    if c in CanonMembers(front) {
      i := Origin(front, c);
      assert front[i] == members[i];
    } else {
      i := |members| - 1;
    }
  }

  /** And every kept one gives one. */
  lemma {:induction false} Includes(members: seq<Member>, i: nat)
    requires i < |members| && Kept(members[i])
    ensures CanonOf(members[i]) in CanonMembers(members)
  {
    if i < |members| - 1 {
      Includes(members[..|members| - 1], i);
    }
  }

  lemma {:induction false} MembersDistinct(members: seq<Member>)
    requires DistinctBy(members, KeyOf())
    ensures DistinctBy(CanonMembers(members), KeyOf())
  {
    if members != [] {
      var front, last := members[..|members| - 1], members[|members| - 1];
      forall i, j | 0 <= i < j < |front| ensures KeyOf()(front[i]) != KeyOf()(front[j]) {
        assert KeyOf()(members[i]) != KeyOf()(members[j]);
      }
      MembersDistinct(front);
      var r := CanonMembers(front);
      forall i | 0 <= i < |r| ensures r[i].key != last.key {
        var k := Origin(front, r[i]);
        assert KeyOf()(members[k]) != KeyOf()(members[|members| - 1]);
      }
    }
  }

  lemma KeyOrder()
    ensures StrictWeakOrder(KeyBefore)
  {
    TextOrder();
  }

  lemma DistinctIsTotal(members: seq<Member>)
    requires DistinctBy(members, KeyOf())
    ensures TotalOn(members, KeyBefore)
  {
    forall x, y | x in members && y in members && x != y ensures KeyBefore(x, y) || KeyBefore(y, x) {
      KeysDiffer(members, KeyOf(), x, y);
      TextTotal(x.key, y.key);
    }
  }

  /** Two member lists with distinct keys and the same members sort to the same list. */
  lemma SortAgrees(a: seq<Member>, b: seq<Member>)
    requires DistinctBy(a, KeyOf()) && DistinctBy(b, KeyOf())
    requires forall m :: m in a <==> m in b
    ensures Sort(a, KeyBefore) == Sort(b, KeyBefore)
  {
    forall m ensures multiset(a)[m] == multiset(b)[m] {
      DistinctCountsOnce(a, KeyOf(), m);
      DistinctCountsOnce(b, KeyOf(), m);
      assert m in multiset(a) <==> m in a;
      assert m in multiset(b) <==> m in b;
    }
    assert multiset(a) == multiset(b);
    KeyOrder();
    SortPermutes(a, KeyBefore);
    SortPermutes(b, KeyBefore);
    SortSorted(a, KeyBefore);
    SortSorted(b, KeyBefore);
    DistinctIsTotal(a);
    SortedUnique(Sort(a, KeyBefore), Sort(b, KeyBefore), KeyBefore);
  }

  lemma SortedHas(members: seq<Member>, c: Member)
    ensures c in Sort(CanonMembers(members), KeyBefore) <==> c in CanonMembers(members)
  {
    SortPermutes(CanonMembers(members), KeyBefore);
  }

  ghost predicate KeysRise(members: seq<Member>) {
    forall i, j | 0 <= i < j < |members| :: TextBefore(members[i].key, members[j].key)
  }

  lemma KeptRise(members: seq<Member>)
    requires DistinctBy(members, KeyOf())
    ensures KeysRise(Sort(CanonMembers(members), KeyBefore))
  {
    var (c, s) := (CanonMembers(members), Sort(CanonMembers(members), KeyBefore));
    MembersDistinct(members);
    KeyOrder();
    SortSorted(c, KeyBefore);
    SortPermutes(c, KeyBefore);
    DistinctPermutes(c, s, KeyOf());
    hide Sort, CanonMembers;
    forall i, j | 0 <= i < j < |s| ensures TextBefore(s[i].key, s[j].key) {
      assert !KeyBefore(s[j], s[i]);
      assert KeyOf()(s[i]) != KeyOf()(s[j]);
      TextTotal(s[i].key, s[j].key);
    }
  }

  /**
   * What the canonical form of a plain value consists of: an array keeps its
   * entries in place, with null for undefined; an object keeps the canonical values
   * of its members, in rising order of their keys, without undefined ones and
   * without `__proto__`; and everything else stays what it is.
   */
  lemma CanonShape(v: Value)
    requires Plain(v)
    ensures
      match v
      case Arr(items) =>
        && Canon(v).Arr? && |Canon(v).items| == |items|
        && forall i | 0 <= i < |items| :: Canon(v).items[i] == if items[i] == Undefined then Null else Canon(items[i])
      case Obj(members) => WrittenFrom(members, Canon(v))
      case Derived(_, members) => WrittenFrom(members, Canon(v))
      case _ => Canon(v) == v
  {
    if v.Arr? {
      forall i | 0 <= i < |v.items|
        ensures Canon(v).items[i] == if v.items[i] == Undefined then Null else Canon(v.items[i]) {
        ItemsAt(v.items, i);
        CanonUndefined(v.items[i]);
      }
    } else if IsObject(v) {
      ObjectParts(v);
      WrittenFromMembers(v.members, Canon(v));
    }
  }

  /** The member is one of these, with its value in canonical form. */
  ghost predicate StandsFor(m: Member, members: seq<Member>) {
    exists i :: 0 <= i < |members| && members[i].key == m.key && members[i].value != Undefined && m.value == Canon(members[i].value)
  }

  /** An object of rising keys with the canonical values of exactly the members that are written. */
  ghost predicate WrittenFrom(members: seq<Member>, c: Value) {
    && c.Obj? && KeysRise(c.members)
    && (forall m | m in c.members :: m.key != PROTO && StandsFor(m, members))
    && (forall i | 0 <= i < |members| && members[i].value != Undefined && members[i].key != PROTO ::
          Member(members[i].key, Canon(members[i].value)) in c.members)
  }

  lemma WrittenFromMembers(members: seq<Member>, c: Value)
    requires DistinctBy(members, KeyOf()) && c == Obj(Sort(CanonMembers(members), KeyBefore))
    ensures WrittenFrom(members, c)
  {
    KeptRise(members);
    hide Sort, CanonMembers, KeysRise, Canon;
    forall m | m in c.members ensures m.key != PROTO && StandsFor(m, members) {
      SortedHas(members, m);
      var i := Origin(members, m);
      CanonUndefined(members[i].value);
    }
    forall i | 0 <= i < |members| && members[i].value != Undefined && members[i].key != PROTO
      ensures Member(members[i].key, Canon(members[i].value)) in c.members {
      CanonUndefined(members[i].value);
      Includes(members, i);
      SortedHas(members, CanonOf(members[i]));
    }
  }

  // ----- when two values are written alike

  predicate HasKey(members: seq<Member>, key: string) {
    exists i :: 0 <= i < |members| && members[i].key == key && members[i].value != Undefined
  }

  /** A member's counterpart: the same key, with a value that agrees. */
  ghost predicate Paired(m: Member, others: seq<Member>)
    decreases m.value, 1
  {
    exists j :: 0 <= j < |others| && others[j].key == m.key && others[j].value != Undefined && Agree(m.value, others[j].value)
  }

  /** Array entries agree, undefined and null being one. */
  ghost predicate SameEntry(x: Value, y: Value)
    decreases x, 1
  {
    if x == Undefined || y == Undefined then OrNull(x) == OrNull(y) else Agree(x, y)
  }

  ghost predicate MembersAgree(a: seq<Member>, b: seq<Member>)
    decreases a, 2
  {
    && (forall i | 0 <= i < |a| && a[i].value != Undefined :: Paired(a[i], b))
    && (forall j | 0 <= j < |b| && b[j].value != Undefined :: HasKey(a, b[j].key))
  }

  /** What two plain values must share: everything but key order, undefined members and undefined against null in arrays. */
  ghost predicate Agree(a: Value, b: Value)
    decreases a, 0
  {
    match a
    case Arr(items) =>
      b.Arr? && |items| == |b.items| && forall i | 0 <= i < |items| :: SameEntry(items[i], b.items[i])
    case Obj(members) => IsObject(b) && MembersAgree(members, b.members)
    case Derived(_, members) => IsObject(b) && MembersAgree(members, b.members)
    case _ => a == b
  }

  /** No object anywhere inside has an own member named "__proto__" with a value. */
  ghost predicate NoProto(v: Value)
    decreases v
  {
    match v
    case Arr(items) => forall i | 0 <= i < |items| :: NoProto(items[i])
    case Obj(members) => forall i | 0 <= i < |members| :: HarmlessKey(members[i]) && NoProto(members[i].value)
    case Derived(_, members) => forall i | 0 <= i < |members| :: HarmlessKey(members[i]) && NoProto(members[i].value)
    case _ => true
  }

  predicate HarmlessKey(m: Member) {
    m.key == PROTO ==> m.value == Undefined
  }

  lemma CanonUndefined(v: Value)
    ensures Canon(v) == Undefined <==> v == Undefined
    ensures v == Null ==> Canon(v) == Null
    ensures Canon(v) == Null ==> v == Null
  {
  }

  /** Values without such a member are written alike, and so hashed alike, exactly when they agree. */
  lemma {:induction false} SameCanonIffAgree(a: Value, b: Value)
    requires Plain(a) && Plain(b) && NoProto(a) && NoProto(b)
    ensures Canon(a) == Canon(b) <==> Agree(a, b)
    decreases a
  {
    match a
    case Arr(items) => if b.Arr? { SameItemsIffAgree(items, b.items); }
    case Obj(members) => if IsObject(b) { SameMembersIffAgree(a, b); }
    case Derived(_, members) => if IsObject(b) { SameMembersIffAgree(a, b); }
    case _ =>
  }

  lemma SameItemsIffAgree(a: seq<Value>, b: seq<Value>)
    requires Plain(Arr(a)) && Plain(Arr(b)) && NoProto(Arr(a)) && NoProto(Arr(b))
    ensures Canon(Arr(a)) == Canon(Arr(b)) <==> Agree(Arr(a), Arr(b))
    decreases Arr(a), 0
  {
    if |a| == |b| {
      forall i | 0 <= i < |a|
        ensures CanonItems(a)[i] == CanonItems(b)[i] <==> SameEntry(a[i], b[i])
      {
        ItemsAt(a, i);
        ItemsAt(b, i);
        CanonUndefined(a[i]);
        CanonUndefined(b[i]);
        SameCanonIffAgree(a[i], b[i]);
      }
      assert CanonItems(a) == CanonItems(b) <==> forall i | 0 <= i < |a| :: CanonItems(a)[i] == CanonItems(b)[i];
    }
  }

  lemma ObjectParts(v: Value)
    requires IsObject(v) && Plain(v)
    ensures DistinctBy(v.members, KeyOf()) && AllPlain(v.members)
    ensures Canon(v) == Obj(Sort(CanonMembers(v.members), KeyBefore))
    ensures NoProto(v) ==> forall i | 0 <= i < |v.members| :: HarmlessKey(v.members[i]) && NoProto(v.members[i].value)
  {
  }

  lemma SameMembersIffAgree(a: Value, b: Value)
    requires IsObject(a) && IsObject(b) && Plain(a) && Plain(b) && NoProto(a) && NoProto(b)
    ensures Canon(a) == Canon(b) <==> Agree(a, b)
    decreases a, 0
  {
    ObjectParts(a);
    ObjectParts(b);
    assert Decided(a.members, b.members) by {
      forall i, j | 0 <= i < |a.members| && 0 <= j < |b.members|
        ensures Canon(a.members[i].value) == Canon(b.members[j].value) <==> Agree(a.members[i].value, b.members[j].value)
      {
        SameCanonIffAgree(a.members[i].value, b.members[j].value);
      }
    }
    assert Agree(a, b) <==> MembersAgree(a.members, b.members);
    hide *;
    if Agree(a, b) {
      AgreeingMembers(a.members, b.members);
    } else if Canon(a) == Canon(b) {
      EqualMembersAgree(a.members, b.members);
    }
  }

  /** One value agrees with another exactly when their canonical forms are equal, for all members of two lists. */
  ghost predicate Decided(a: seq<Member>, b: seq<Member>) {
    forall i, j | 0 <= i < |a| && 0 <= j < |b| :: Canon(a[i].value) == Canon(b[j].value) <==> Agree(a[i].value, b[j].value)
  }

  lemma DecidedAt(a: seq<Member>, b: seq<Member>, i: nat, j: nat)
    requires Decided(a, b) && i < |a| && j < |b| && Agree(a[i].value, b[j].value)
    ensures Canon(a[i].value) == Canon(b[j].value)
  {
  }

  lemma AgreesLeft(a: seq<Member>, b: seq<Member>, i: nat) returns (j: nat)
    requires MembersAgree(a, b) && i < |a| && a[i].value != Undefined
    ensures j < |b| && b[j].key == a[i].key && b[j].value != Undefined && Agree(a[i].value, b[j].value)
  {
    assert Paired(a[i], b);
    j :| 0 <= j < |b| && b[j].key == a[i].key && b[j].value != Undefined && Agree(a[i].value, b[j].value);
  }

  lemma AgreesRight(a: seq<Member>, b: seq<Member>, j: nat) returns (i: nat)
    requires MembersAgree(a, b) && j < |b| && b[j].value != Undefined
    ensures i < |a| && a[i].key == b[j].key && a[i].value != Undefined
  {
    assert HasKey(a, b[j].key);
    i :| 0 <= i < |a| && a[i].key == b[j].key && a[i].value != Undefined;
  }

  lemma LeftIncluded(a: seq<Member>, b: seq<Member>, m: Member)
    requires MembersAgree(a, b) && Decided(a, b) && m in CanonMembers(a)
    ensures m in CanonMembers(b)
  {
    hide Agree, MembersAgree, Decided, Canon, CanonMembers;
    var i := Origin(a, m);
    CanonUndefined(a[i].value);
    var j := AgreesLeft(a, b, i);
    DecidedAt(a, b, i, j);
    CanonUndefined(b[j].value);
    Includes(b, j);
  }

  lemma RightIncluded(a: seq<Member>, b: seq<Member>, m: Member)
    requires DistinctBy(b, KeyOf()) && MembersAgree(a, b) && Decided(a, b) && m in CanonMembers(b)
    ensures m in CanonMembers(a)
  {
    hide Agree, MembersAgree, Decided, Canon, CanonMembers, DistinctBy;
    var j := Origin(b, m);
    CanonUndefined(b[j].value);
    var i := AgreesRight(a, b, j);
    var k := AgreesLeft(a, b, i);
    OneOfKey(b, j, k);
    DecidedAt(a, b, i, k);
    CanonUndefined(a[i].value);
    Includes(a, i);
  }

  lemma AgreeingMembers(a: seq<Member>, b: seq<Member>)
    requires DistinctBy(a, KeyOf()) && DistinctBy(b, KeyOf()) && MembersAgree(a, b) && Decided(a, b)
    ensures Sort(CanonMembers(a), KeyBefore) == Sort(CanonMembers(b), KeyBefore)
  {
    forall m ensures m in CanonMembers(a) <==> m in CanonMembers(b) {
      if m in CanonMembers(a) { LeftIncluded(a, b, m); }
      if m in CanonMembers(b) { RightIncluded(a, b, m); }
    }
    MembersDistinct(a);
    MembersDistinct(b);
    hide *;
    SortAgrees(CanonMembers(a), CanonMembers(b));
  }

  lemma OneOfKey(b: seq<Member>, j: nat, k: nat)
    requires DistinctBy(b, KeyOf()) && j < |b| && k < |b| && b[j].key == b[k].key
    ensures j == k
  {
    assert KeyOf()(b[j]) == KeyOf()(b[k]);
  }

  /** A member with a value has its counterpart in any object with the same canonical form. */
  lemma Counterpart(a: seq<Member>, b: seq<Member>, i: nat) returns (j: nat)
    requires Sort(CanonMembers(a), KeyBefore) == Sort(CanonMembers(b), KeyBefore)
    requires i < |a| && a[i].value != Undefined && HarmlessKey(a[i])
    ensures j < |b| && b[j].key == a[i].key && b[j].value != Undefined && Canon(b[j].value) == Canon(a[i].value)
  {
    CanonUndefined(a[i].value);
    Includes(a, i);
    SortedHas(a, CanonOf(a[i]));
    SortedHas(b, CanonOf(a[i]));
    j := Origin(b, CanonOf(a[i]));
    CanonUndefined(b[j].value);
  }

  lemma EqualMembersAgree(a: seq<Member>, b: seq<Member>)
    requires Sort(CanonMembers(a), KeyBefore) == Sort(CanonMembers(b), KeyBefore) && Decided(a, b)
    requires (forall i | 0 <= i < |a| :: HarmlessKey(a[i])) && forall j | 0 <= j < |b| :: HarmlessKey(b[j])
    ensures MembersAgree(a, b)
  {
    forall i | 0 <= i < |a| && a[i].value != Undefined ensures Paired(a[i], b) {
      var j := Counterpart(a, b, i);
      assert Agree(a[i].value, b[j].value);
    }
    forall j | 0 <= j < |b| && b[j].value != Undefined ensures HasKey(a, b[j].key) {
      var i := Counterpart(b, a, j);
      assert a[i].key == b[j].key;
    }
    hide Canon, CanonMembers;
  }

  // ----- members named "__proto__"

  /** The value without its own members of that name. */
  function Visible(v: Value): Value
    decreases v
  {
    match v
    case Arr(items) => Arr(VisibleItems(items))
    case Obj(members) => Obj(VisibleMembers(members))
    case Derived(_, members) => Obj(VisibleMembers(members))
    case _ => v
  }

  function VisibleItems(items: seq<Value>): (r: seq<Value>)
    ensures |r| == |items|
    decreases items
  {
    if items == [] then [] else VisibleItems(items[..|items| - 1]) + [Visible(items[|items| - 1])]
  }

  function VisibleMembers(members: seq<Member>): seq<Member>
    decreases members
  {
    if members == [] then []
    else
      var last := members[|members| - 1];
      VisibleMembers(members[..|members| - 1]) + if last.key == PROTO then [] else [Member(last.key, Visible(last.value))]
  }

  lemma {:induction false} VisibleAt(items: seq<Value>, i: nat)
    requires i < |items|
    ensures VisibleItems(items)[i] == Visible(items[i])
  {
    if i < |items| - 1 { VisibleAt(items[..|items| - 1], i); }
  }

  /** Every visible member comes from one of another name. */
  lemma {:induction false} VisibleOrigin(members: seq<Member>, j: nat) returns (i: nat)
    requires j < |VisibleMembers(members)|
    ensures i < |members| && members[i].key != PROTO
    ensures VisibleMembers(members)[j] == Member(members[i].key, Visible(members[i].value))
  {
    var front := members[..|members| - 1];
    if j < |VisibleMembers(front)| {
      i := VisibleOrigin(front, j);
      assert front[i] == members[i];
    } else {
      i := |members| - 1;
    }
  }

  lemma {:induction false} VisibleDistinct(members: seq<Member>)
    requires DistinctBy(members, KeyOf())
    ensures DistinctBy(VisibleMembers(members), KeyOf())
  {
    if members != [] {
      var front, last := members[..|members| - 1], members[|members| - 1];
      forall i, j | 0 <= i < j < |front| ensures KeyOf()(front[i]) != KeyOf()(front[j]) {
        assert KeyOf()(members[i]) != KeyOf()(members[j]);
      }
      VisibleDistinct(front);
      var r := VisibleMembers(front);
      forall i | 0 <= i < |r| ensures r[i].key != last.key {
        var k := VisibleOrigin(front, i);
        assert KeyOf()(members[k]) != KeyOf()(members[|members| - 1]);
      }
    }
  }

  ghost predicate Tidied(v: Value) {
    Plain(Visible(v)) && NoProto(Visible(v)) && Canon(Visible(v)) == Canon(v)
  }

  /** Without those members a plain value stays plain and is written alike: they leave no trace in what is hashed. */
  lemma {:induction false} VisibleIsWrittenAlike(v: Value)
    requires Plain(v)
    ensures Plain(Visible(v)) && NoProto(Visible(v)) && Canon(Visible(v)) == Canon(v)
    decreases v
  {
    match v
    case Arr(items) =>
      forall i | 0 <= i < |items| ensures Tidied(items[i]) { VisibleIsWrittenAlike(items[i]); }
      ItemsTidied(items);
    case Obj(members) =>
      forall i | 0 <= i < |members| ensures Tidied(members[i].value) { VisibleIsWrittenAlike(members[i].value); }
      MembersTidied(members);
    case Derived(_, members) =>
      forall i | 0 <= i < |members| ensures Tidied(members[i].value) { VisibleIsWrittenAlike(members[i].value); }
      MembersTidied(members);
    case _ =>
  }

  lemma ItemsTidied(items: seq<Value>)
    requires forall i | 0 <= i < |items| :: Tidied(items[i])
    ensures Tidied(Arr(items))
  {
    var r := VisibleItems(items);
    forall i | 0 <= i < |items| ensures Plain(r[i]) && NoProto(r[i]) && CanonItems(r)[i] == CanonItems(items)[i] {
      VisibleAt(items, i);
      ItemsAt(items, i);
      ItemsAt(r, i);
      assert Tidied(items[i]);
    }
  }

  lemma VisibleMemberTidy(members: seq<Member>, j: nat)
    requires (forall i | 0 <= i < |members| :: Tidied(members[i].value)) && j < |VisibleMembers(members)|
    ensures
      var m := VisibleMembers(members)[j];
      m.key != PROTO && Plain(m.value) && NoProto(m.value)
  {
    hide Visible, VisibleMembers, Plain, NoProto, Canon;
    var i := VisibleOrigin(members, j);
    assert Tidied(members[i].value);
  }

  lemma TidyMembers(r: seq<Member>)
    requires DistinctBy(r, KeyOf())
    requires forall j | 0 <= j < |r| :: r[j].key != PROTO && Plain(r[j].value) && NoProto(r[j].value)
    ensures Plain(Obj(r)) && NoProto(Obj(r))
  {
  }

  lemma TidiedObject(members: seq<Member>)
    requires Plain(Obj(VisibleMembers(members))) && NoProto(Obj(VisibleMembers(members)))
    requires CanonMembers(VisibleMembers(members)) == CanonMembers(members)
    ensures Tidied(Obj(members))
  {
    hide Plain, NoProto, CanonMembers, VisibleMembers;
  }

  lemma MembersTidied(members: seq<Member>)
    requires DistinctBy(members, KeyOf()) && forall i | 0 <= i < |members| :: Tidied(members[i].value)
    ensures Tidied(Obj(members))
  {
    hide *;
    var r := VisibleMembers(members);
    VisibleDistinct(members);
    forall j | 0 <= j < |r| ensures r[j].key != PROTO && Plain(r[j].value) && NoProto(r[j].value) {
      VisibleMemberTidy(members, j);
    }
    TidyMembers(r);
    SameCanonMembers(members);
    TidiedObject(members);
  }

  lemma VisibleAppend(front: seq<Member>, last: Member)
    ensures VisibleMembers(front + [last])
         == VisibleMembers(front) + if last.key == PROTO then [] else [Member(last.key, Visible(last.value))]
  {
    assert (front + [last])[..|front + [last]| - 1] == front;
  }

  lemma CanonAppend(front: seq<Member>, last: Member)
    ensures CanonMembers(front + [last])
         == CanonMembers(front) + if last.key == PROTO || Canon(last.value) == Undefined then [] else [Member(last.key, Canon(last.value))]
  {
    assert (front + [last])[..|front + [last]| - 1] == front;
  }

  lemma TidiedCanon(v: Value)
    requires Tidied(v)
    ensures Canon(Visible(v)) == Canon(v)
  {
  }

  lemma {:induction false} SameCanonMembers(members: seq<Member>)
    requires forall i | 0 <= i < |members| :: Tidied(members[i].value)
    ensures CanonMembers(VisibleMembers(members)) == CanonMembers(members)
  {
    if members == [] {
      assert VisibleMembers(members) == [];
    } else {
      hide *;
      var front, last := members[..|members| - 1], members[|members| - 1];
      LastOf(members);
      TidiedCanon(last.value);
      SameCanonMembers(front);
      VisibleAppend(front, last);
      CanonAppend(front, last);
      if last.key == PROTO {
        assert VisibleMembers(front) + [] == VisibleMembers(front) && CanonMembers(front) + [] == CanonMembers(front);
      } else {
        CanonAppend(VisibleMembers(front), Member(last.key, Visible(last.value)));
      }
    }
  }

  /** In general: what is hashed is alike exactly when the values agree in all but those members. */
  lemma SameCanonIffVisibleAgree(a: Value, b: Value)
    requires Plain(a) && Plain(b)
    ensures Canon(a) == Canon(b) <==> Agree(Visible(a), Visible(b))
  {
    VisibleIsWrittenAlike(a);
    VisibleIsWrittenAlike(b);
    SameCanonIffAgree(Visible(a), Visible(b));
  }

  /** A value agrees with its visible part only when it has no such member. */
  lemma {:induction false} OnlyTidyValuesAgree(v: Value)
    requires Plain(v) && Agree(v, Visible(v))
    ensures NoProto(v)
    decreases v
  {
    match v
    case Arr(items) =>
      forall i | 0 <= i < |items| ensures NoProto(items[i]) {
        VisibleAt(items, i);
        assert SameEntry(items[i], VisibleItems(items)[i]);
        if items[i] != Undefined { OnlyTidyValuesAgree(items[i]); }
      }
    case Obj(members) =>
      forall i | 0 <= i < |members| ensures HarmlessKey(members[i]) && NoProto(members[i].value) {
        if members[i].value != Undefined {
          AgreesWithItself(members, i);
          OnlyTidyValuesAgree(members[i].value);
        }
      }
    case Derived(_, members) =>
      forall i | 0 <= i < |members| ensures HarmlessKey(members[i]) && NoProto(members[i].value) {
        if members[i].value != Undefined {
          AgreesWithItself(members, i);
          OnlyTidyValuesAgree(members[i].value);
        }
      }
    case _ =>
  }

  lemma AgreesWithItself(members: seq<Member>, i: nat)
    requires DistinctBy(members, KeyOf()) && MembersAgree(members, VisibleMembers(members))
    requires i < |members| && members[i].value != Undefined
    ensures members[i].key != PROTO && Agree(members[i].value, Visible(members[i].value))
  {
    var r := VisibleMembers(members);
    var j := AgreesLeft(members, r, i);
    var k := VisibleOrigin(members, j);
    OneOfKey(members, i, k);
  }

  /**
   * A value can be told by what is hashed from every other value without such a
   * member that does not agree with it, exactly when it has no such member itself.
   */
  lemma ToldApartIffNoProto(a: Value)
    requires Plain(a)
    ensures (forall b | Plain(b) && NoProto(b) :: Canon(a) == Canon(b) <==> Agree(a, b)) <==> NoProto(a)
  {
    if NoProto(a) {
      forall b | Plain(b) && NoProto(b) ensures Canon(a) == Canon(b) <==> Agree(a, b) { SameCanonIffAgree(a, b); }
    } else {
      VisibleIsWrittenAlike(a);
      if Agree(a, Visible(a)) { OnlyTidyValuesAgree(a); }
    }
  }

  /** An object with only such a member is hashed as the empty object. */
  lemma ProtoMemberIsLost(v: Value)
    requires Plain(v) && v != Undefined
    ensures
      var (a, b) := (Obj([Member(PROTO, v)]), Obj([]));
      Plain(a) && Plain(b) && Canon(a) == Canon(b) && !Agree(a, b)
  {
    var ms := [Member(PROTO, v)];
    assert ms[..0] == [] && CanonMembers(ms[..0]) == [] && CanonMembers(ms) == [];
    assert !Paired(ms[0], []);
  }

  // ----- the object the code builds

  /** What an assignment to "__proto__" accepts as the prototype. */
  predicate Settable(v: Value) {
    v == Null || v.Arr? || IsObject(v)
  }

  function Built(v: Value): Value
    decreases v
  {
    match v
    case Arr(items) => Arr(BuiltItems(items))
    case Obj(members) => Assembled(Sort(BuiltMembers(members), KeyBefore), Prototype(members))
    case Derived(_, members) => Assembled(Sort(BuiltMembers(members), KeyBefore), Prototype(members))
    case _ => v
  }

  function Assembled(own: seq<Member>, proto: Option<Value>): Value {
    if proto.Some? then Derived(proto.value, own) else Obj(own)
  }

  function BuiltItems(items: seq<Value>): (r: seq<Value>)
    ensures |r| == |items|
    decreases items
  {
    if items == [] then [] else BuiltItems(items[..|items| - 1]) + [OrNull(Built(items[|items| - 1]))]
  }

  function BuiltMembers(members: seq<Member>): seq<Member>
    decreases members
  {
    if members == [] then []
    else
      var last := members[|members| - 1];
      BuiltMembers(members[..|members| - 1])
      + if last.key == PROTO || Built(last.value) == Undefined then [] else [Member(last.key, Built(last.value))]
  }

  /** The prototype the assignments leave, when they change it. */
  function Prototype(members: seq<Member>): Option<Value>
    decreases members
  {
    if members == [] then None
    else
      var last := members[|members| - 1];
      if last.key == PROTO && Settable(Built(last.value)) then Some(Built(last.value))
      else Prototype(members[..|members| - 1])
  }

  lemma {:induction false} BuiltAt(items: seq<Value>, i: nat)
    requires i < |items|
    ensures BuiltItems(items)[i] == OrNull(Built(items[i]))
  {
    if i < |items| - 1 { BuiltAt(items[..|items| - 1], i); }
  }

  predicate Assigned(m: Member) {
    m.key != PROTO && Built(m.value) != Undefined
  }

  lemma BuiltKind(v: Value)
    ensures Built(v) == Undefined <==> v == Undefined
    ensures Built(v) == Null <==> v == Null
    ensures Built(v).Arr? <==> v.Arr?
    ensures IsObject(Built(v)) <==> IsObject(v)
    ensures !v.Arr? && !IsObject(v) ==> Built(v) == v
  {
  }

  lemma {:induction false} BuiltOrigin(members: seq<Member>, c: Member) returns (i: nat)
    requires c in BuiltMembers(members)
    ensures i < |members| && Assigned(members[i]) && c == Member(members[i].key, Built(members[i].value))
  {
    var front := members[..|members| - 1];
    if c in BuiltMembers(front) {
      i := BuiltOrigin(front, c);
      assert front[i] == members[i];
    } else {
      i := |members| - 1;
    }
  }

  lemma {:induction false} BuiltIncludes(members: seq<Member>, i: nat)
    requires i < |members| && Assigned(members[i])
    ensures Member(members[i].key, Built(members[i].value)) in BuiltMembers(members)
  {
    if i < |members| - 1 { BuiltIncludes(members[..|members| - 1], i); }
  }

  lemma {:induction false} BuiltDistinct(members: seq<Member>)
    requires DistinctBy(members, KeyOf())
    ensures DistinctBy(BuiltMembers(members), KeyOf())
  {
    if members != [] {
      var front, last := members[..|members| - 1], members[|members| - 1];
      forall i, j | 0 <= i < j < |front| ensures KeyOf()(front[i]) != KeyOf()(front[j]) {
        assert KeyOf()(members[i]) != KeyOf()(members[j]);
      }
      BuiltDistinct(front);
      var r := BuiltMembers(front);
      forall i | 0 <= i < |r| ensures r[i].key != last.key {
        var k := BuiltOrigin(front, r[i]);
        assert KeyOf()(members[k]) != KeyOf()(members[|members| - 1]);
      }
    }
  }

  lemma BuiltOwn(members: seq<Member>, own: seq<Member>)
    requires DistinctBy(members, KeyOf()) && own == Sort(BuiltMembers(members), KeyBefore)
    ensures DistinctBy(own, KeyOf()) && forall m :: m in own <==> m in BuiltMembers(members)
  {
    BuiltDistinct(members);
    SortPermutes(BuiltMembers(members), KeyBefore);
    DistinctPermutes(BuiltMembers(members), own, KeyOf());
  }

  // ----- canonicalizing twice

  /** The object built for a value is written as the value is: taking the canonical form again would change nothing. */
  lemma {:induction false} BuiltIsWrittenAlike(v: Value)
    requires Plain(v)
    ensures Canon(Built(v)) == Canon(v)
    decreases v
  {
    match v
    case Arr(items) =>
      forall i | 0 <= i < |items| ensures CanonItems(BuiltItems(items))[i] == CanonItems(items)[i] {
        BuiltIsWrittenAlike(items[i]);
        BuiltAt(items, i);
        ItemsAt(items, i);
        ItemsAt(BuiltItems(items), i);
        BuiltKind(items[i]);
        CanonUndefined(items[i]);
      }
      assert CanonItems(BuiltItems(items)) == CanonItems(items);
    case Obj(members) =>
      forall i | 0 <= i < |members| ensures Rewritten(members[i].value) { BuiltIsWrittenAlike(members[i].value); }
      BuiltMembersWrittenAlike(members, Sort(BuiltMembers(members), KeyBefore));
      ObjectParts(v);
    case Derived(_, members) =>
      forall i | 0 <= i < |members| ensures Rewritten(members[i].value) { BuiltIsWrittenAlike(members[i].value); }
      BuiltMembersWrittenAlike(members, Sort(BuiltMembers(members), KeyBefore));
      ObjectParts(v);
    case _ =>
  }

  ghost predicate Rewritten(v: Value) {
    Canon(Built(v)) == Canon(v)
  }

  lemma RewrittenMember(members: seq<Member>, own: seq<Member>, m: Member)
    requires (forall i | 0 <= i < |members| :: Rewritten(members[i].value)) && m in CanonMembers(own)
    requires forall c :: c in own <==> c in BuiltMembers(members)
    ensures m in CanonMembers(members)
  {
    var j := Origin(own, m);
    var i := BuiltOrigin(members, own[j]);
    assert Rewritten(members[i].value);
    Includes(members, i);
  }

  lemma WrittenMember(members: seq<Member>, own: seq<Member>, m: Member)
    requires (forall i | 0 <= i < |members| :: Rewritten(members[i].value)) && m in CanonMembers(members)
    requires forall c :: c in own <==> c in BuiltMembers(members)
    ensures m in CanonMembers(own)
  {
    var i := Origin(members, m);
    assert Rewritten(members[i].value);
    CanonUndefined(members[i].value);
    BuiltKind(members[i].value);
    BuiltIncludes(members, i);
    var b := Member(members[i].key, Built(members[i].value));
    assert b in own;
    var j :| 0 <= j < |own| && own[j] == b;
    Includes(own, j);
  }

  lemma BuiltMembersWrittenAlike(members: seq<Member>, own: seq<Member>)
    requires DistinctBy(members, KeyOf()) && own == Sort(BuiltMembers(members), KeyBefore)
    requires forall i | 0 <= i < |members| :: Rewritten(members[i].value)
    ensures Sort(CanonMembers(own), KeyBefore) == Sort(CanonMembers(members), KeyBefore)
  {
    hide *;
    BuiltOwn(members, own);
    forall m ensures m in CanonMembers(own) <==> m in CanonMembers(members) {
      if m in CanonMembers(own) { RewrittenMember(members, own, m); }
      if m in CanonMembers(members) { WrittenMember(members, own, m); }
    }
    MembersDistinct(members);
    MembersDistinct(own);
    SortAgrees(CanonMembers(own), CanonMembers(members));
  }

  /** No object anywhere inside has an own member named "__proto__" that holds an object or an array. */
  ghost predicate NoObjectProto(v: Value)
    decreases v, 0
  {
    match v
    case Arr(items) => forall i | 0 <= i < |items| :: NoObjectProto(items[i])
    case Obj(members) => forall i | 0 <= i < |members| :: GentleMember(members[i])
    case Derived(_, members) => forall i | 0 <= i < |members| :: GentleMember(members[i])
    case _ => true
  }

  ghost predicate GentleMember(m: Member)
    decreases m.value, 1
  {
    if m.key == PROTO then !m.value.Arr? && !IsObject(m.value) else NoObjectProto(m.value)
  }

  lemma {:induction false} PrototypeIs(members: seq<Member>)
    requires DistinctBy(members, KeyOf())
    ensures forall i | 0 <= i < |members| && members[i].key == PROTO ::
      Prototype(members) == if Settable(Built(members[i].value)) then Some(Built(members[i].value)) else None
    ensures (forall i | 0 <= i < |members| :: members[i].key != PROTO) ==> Prototype(members) == None
  {
    if members != [] {
      var front, last := members[..|members| - 1], members[|members| - 1];
      forall i, j | 0 <= i < j < |front| ensures KeyOf()(front[i]) != KeyOf()(front[j]) {
        assert KeyOf()(members[i]) != KeyOf()(members[j]);
      }
      PrototypeIs(front);
      forall i | 0 <= i < |members| && members[i].key == PROTO
        ensures Prototype(members) == if Settable(Built(members[i].value)) then Some(Built(members[i].value)) else None
      {
        if i < |front| {
          assert front[i] == members[i];
          assert KeyOf()(members[i]) != KeyOf()(members[|members| - 1]);
        } else {
          forall k | 0 <= k < |front| ensures front[k].key != PROTO {
            assert KeyOf()(members[k]) != KeyOf()(members[|members| - 1]);
          }
        }
      }
    }
  }

  /** The code accepts its own result again exactly when no such member holds an object or an array. */
  lemma {:induction false} AcceptedAgainIff(v: Value)
    requires Plain(v)
    ensures Plain(Built(v)) <==> NoObjectProto(v)
    decreases v
  {
    match v
    case Arr(items) =>
      forall i | 0 <= i < |items| ensures Plain(BuiltItems(items)[i]) <==> NoObjectProto(items[i]) {
        AcceptedAgainIff(items[i]);
        BuiltAt(items, i);
      }
    case Obj(members) =>
      forall i | 0 <= i < |members| ensures Plain(Built(members[i].value)) <==> NoObjectProto(members[i].value) {
        AcceptedAgainIff(members[i].value);
      }
      MembersAcceptedAgain(members, Sort(BuiltMembers(members), KeyBefore));
    case Derived(_, members) =>
      forall i | 0 <= i < |members| ensures Plain(Built(members[i].value)) <==> NoObjectProto(members[i].value) {
        AcceptedAgainIff(members[i].value);
      }
      MembersAcceptedAgain(members, Sort(BuiltMembers(members), KeyBefore));
    case _ =>
  }

  lemma AssembledPlain(own: seq<Member>, proto: Option<Value>)
    requires DistinctBy(own, KeyOf())
    ensures Plain(Assembled(own, proto)) <==> (proto == None || proto == Some(Null)) && forall m | m in own :: Plain(m.value)
  {
    assert forall j | 0 <= j < |own| :: own[j] in own;
  }

  lemma GentleOwn(members: seq<Member>, m: Member)
    requires m in BuiltMembers(members) && forall i | 0 <= i < |members| :: GentleMember(members[i])
    requires forall i | 0 <= i < |members| :: Plain(Built(members[i].value)) <==> NoObjectProto(members[i].value)
    ensures Plain(m.value)
  {
    var i := BuiltOrigin(members, m);
    hide BuiltMembers, Built, Plain, NoObjectProto;
    assert GentleMember(members[i]);
  }

  lemma HarshMember(members: seq<Member>, i: nat)
    requires DistinctBy(members, KeyOf()) && i < |members| && !GentleMember(members[i])
    requires Plain(Built(members[i].value)) <==> NoObjectProto(members[i].value)
    ensures (Prototype(members).Some? && Prototype(members) != Some(Null))
         || exists m :: m in BuiltMembers(members) && !Plain(m.value)
  {
    PrototypeIs(members);
    hide Prototype, Built, NoObjectProto, Plain, BuiltMembers;
    BuiltKind(members[i].value);
    if members[i].key != PROTO {
      PlainUnlessValued(members[i].value);
      BuiltIncludes(members, i);
    }
  }

  lemma MembersAcceptedAgain(members: seq<Member>, own: seq<Member>)
    requires DistinctBy(members, KeyOf()) && own == Sort(BuiltMembers(members), KeyBefore)
    requires forall i | 0 <= i < |members| :: Plain(Built(members[i].value)) <==> NoObjectProto(members[i].value)
    ensures Plain(Assembled(own, Prototype(members))) <==> forall i | 0 <= i < |members| :: GentleMember(members[i])
  {
    hide *;
    BuiltOwn(members, own);
    AssembledPlain(own, Prototype(members));
    if forall i | 0 <= i < |members| :: GentleMember(members[i]) {
      forall m | m in own ensures Plain(m.value) { GentleOwn(members, m); }
      GentlePrototype(members);
    } else {
      var i :| 0 <= i < |members| && !GentleMember(members[i]);
      HarshMember(members, i);
    }
  }

  lemma PlainUnlessValued(v: Value)
    requires !Plain(Built(v))
    ensures v != Undefined
  {
  }

  lemma GentlePrototype(members: seq<Member>)
    requires DistinctBy(members, KeyOf()) && forall i | 0 <= i < |members| :: GentleMember(members[i])
    ensures Prototype(members) == None || Prototype(members) == Some(Null)
  {
    PrototypeIs(members);
    hide Prototype, Built, NoObjectProto;
    if i :| 0 <= i < |members| && members[i].key == PROTO {
      BuiltKind(members[i].value);
      assert GentleMember(members[i]);
    }
  }

  /**
   * Canonicalizing a canonical form is accepted and gives the same text exactly
   * when no own "__proto__" member inside held an object or an array.
   */
  lemma CanonIsIdempotentIff(v: Value)
    requires Plain(v)
    ensures Plain(Built(v)) && Canon(Built(v)) == Canon(v) <==> NoObjectProto(v)
  {
    BuiltIsWrittenAlike(v);
    AcceptedAgainIff(v);
  }

  /** A value whose canonical form is refused when it is canonicalized again. */
  lemma ForeignPrototypeIsRefused(inner: seq<Member>)
    requires Plain(Obj(inner))
    ensures Plain(Obj([Member(PROTO, Obj(inner))])) && !Plain(Built(Obj([Member(PROTO, Obj(inner))])))
  {
    var v := Obj([Member(PROTO, Obj(inner))]);
    assert !GentleMember(v.members[0]);
    AcceptedAgainIff(v);
  }

  // ----- the text

  /** What the text of a built value shows: its own members, whatever its prototype. */
  function Written(v: Value): Value
    decreases v
  {
    match v
    case Arr(items) => Arr(WrittenItems(items))
    case Obj(members) => Obj(WrittenMembers(members))
    case Derived(_, members) => Obj(WrittenMembers(members))
    case _ => v
  }

  function WrittenItems(items: seq<Value>): (r: seq<Value>)
    ensures |r| == |items|
    decreases items
  {
    if items == [] then [] else WrittenItems(items[..|items| - 1]) + [Written(items[|items| - 1])]
  }

  function WrittenMembers(members: seq<Member>): (r: seq<Member>)
    ensures |r| == |members|
    decreases members
  {
    if members == [] then []
    else
      var last := members[|members| - 1];
      WrittenMembers(members[..|members| - 1]) + [Member(last.key, Written(last.value))]
  }

  lemma {:induction false} WrittenItemAt(items: seq<Value>, i: nat)
    requires i < |items|
    ensures WrittenItems(items)[i] == Written(items[i])
  {
    if i < |items| - 1 { WrittenItemAt(items[..|items| - 1], i); }
  }

  lemma {:induction false} WrittenMemberAt(members: seq<Member>, i: nat)
    requires i < |members|
    ensures WrittenMembers(members)[i] == Member(members[i].key, Written(members[i].value))
  {
    if i < |members| - 1 { WrittenMemberAt(members[..|members| - 1], i); }
  }

  ghost predicate TextMatches(v: Value) {
    Written(Built(v)) == Canon(v)
  }

  /** `Canon` is what is written of the object the code builds. */
  lemma {:induction false} CanonIsWritten(v: Value)
    requires Plain(v)
    ensures Written(Built(v)) == Canon(v)
    decreases v
  {
    match v
    case Arr(items) =>
      forall i | 0 <= i < |items| ensures WrittenItems(BuiltItems(items))[i] == CanonItems(items)[i] {
        CanonIsWritten(items[i]);
        BuiltAt(items, i);
        ItemsAt(items, i);
        WrittenItemAt(BuiltItems(items), i);
        CanonUndefined(items[i]);
        BuiltKind(items[i]);
      }
      assert WrittenItems(BuiltItems(items)) == CanonItems(items);
    case Obj(members) =>
      forall i | 0 <= i < |members| ensures TextMatches(members[i].value) { CanonIsWritten(members[i].value); }
      MembersAreWritten(members, Sort(BuiltMembers(members), KeyBefore));
    case Derived(_, members) =>
      forall i | 0 <= i < |members| ensures TextMatches(members[i].value) { CanonIsWritten(members[i].value); }
      MembersAreWritten(members, Sort(BuiltMembers(members), KeyBefore));
    case _ =>
  }

  lemma WrittenComesFrom(members: seq<Member>, own: seq<Member>, m: Member)
    requires (forall i | 0 <= i < |members| :: TextMatches(members[i].value)) && m in WrittenMembers(own)
    requires forall c :: c in own <==> c in BuiltMembers(members)
    ensures m in CanonMembers(members)
  {
    var j :| 0 <= j < |own| && WrittenMembers(own)[j] == m;
    WrittenMemberAt(own, j);
    var i := BuiltOrigin(members, own[j]);
    assert TextMatches(members[i].value);
    CanonUndefined(members[i].value);
    BuiltKind(members[i].value);
    hide Written, WrittenMembers, Built, BuiltMembers, Canon, CanonMembers;
    Includes(members, i);
  }

  lemma CanonComesFrom(members: seq<Member>, own: seq<Member>, m: Member)
    requires (forall i | 0 <= i < |members| :: TextMatches(members[i].value)) && m in CanonMembers(members)
    requires forall c :: c in own <==> c in BuiltMembers(members)
    ensures m in WrittenMembers(own)
  {
    var i := Origin(members, m);
    assert TextMatches(members[i].value);
    CanonUndefined(members[i].value);
    BuiltKind(members[i].value);
    hide Written, WrittenMembers, Built, BuiltMembers, Canon, CanonMembers;
    BuiltIncludes(members, i);
    var b := Member(members[i].key, Built(members[i].value));
    assert b in own;
    var j :| 0 <= j < |own| && own[j] == b;
    WrittenMemberAt(own, j);
  }

  lemma WrittenKeepsKeys(own: seq<Member>)
    requires DistinctBy(own, KeyOf()) && Sorted(own, KeyBefore)
    ensures DistinctBy(WrittenMembers(own), KeyOf()) && Sorted(WrittenMembers(own), KeyBefore)
  {
    hide WrittenMembers, Written;
    forall i, j | 0 <= i < j < |own|
      ensures KeyOf()(WrittenMembers(own)[i]) != KeyOf()(WrittenMembers(own)[j])
      ensures !KeyBefore(WrittenMembers(own)[j], WrittenMembers(own)[i])
    {
      WrittenMemberAt(own, i);
      WrittenMemberAt(own, j);
      assert KeyOf()(own[i]) != KeyOf()(own[j]) && !KeyBefore(own[j], own[i]);
    }
  }

  lemma MembersAreWritten(members: seq<Member>, own: seq<Member>)
    requires DistinctBy(members, KeyOf()) && own == Sort(BuiltMembers(members), KeyBefore)
    requires forall i | 0 <= i < |members| :: TextMatches(members[i].value)
    ensures WrittenMembers(own) == Sort(CanonMembers(members), KeyBefore)
  {
    hide *;
    BuiltOwn(members, own);
    KeyOrder();
    SortSorted(BuiltMembers(members), KeyBefore);
    WrittenKeepsKeys(own);
    forall m ensures m in WrittenMembers(own) <==> m in CanonMembers(members) {
      if m in WrittenMembers(own) { WrittenComesFrom(members, own, m); }
      if m in CanonMembers(members) { CanonComesFrom(members, own, m); }
    }
    MembersDistinct(members);
    SortAgrees(WrittenMembers(own), CanonMembers(members));
    SortedIsFixed(WrittenMembers(own));
  }

  lemma SortedIsFixed(c: seq<Member>)
    requires Sorted(c, KeyBefore) && DistinctBy(c, KeyOf())
    ensures Sort(c, KeyBefore) == c
  {
    KeyOrder();
    SortPermutes(c, KeyBefore);
    SortSorted(c, KeyBefore);
    DistinctIsTotal(c);
    SortedUnique(c, Sort(c, KeyBefore), KeyBefore);
  }

  // ----- the recursion as the code runs it

  datatype Outcome = Canonical(value: Value) | RefusedValue

  /** Objects have each key once: true of every value JavaScript can hold. */
  ghost predicate KeysOnce(v: Value)
    decreases v
  {
    match v
    case Arr(items) => forall i | 0 <= i < |items| :: KeysOnce(items[i])
    case Obj(members) => DistinctBy(members, KeyOf()) && forall i | 0 <= i < |members| :: KeysOnce(members[i].value)
    case Derived(_, members) => DistinctBy(members, KeyOf()) && forall i | 0 <= i < |members| :: KeysOnce(members[i].value)
    case _ => true
  }

  /** Refuses what cannot be hashed; otherwise the object filled in key order. */
  method Canonicalize(v: Value) returns (r: Outcome)
    requires KeysOnce(v)
    ensures r == if Plain(v) then Canonical(Built(v)) else RefusedValue
    decreases v
  {
    match v
    case NonFinite => return RefusedValue;
    case Unsupported => return RefusedValue;
    case Arr(items) =>
      var mapped := CanonicalizeItems(items);
      return if mapped.None? then RefusedValue else Canonical(Arr(mapped.value));
    case Obj(members) =>
      var filled := CanonicalizeMembers(members);
      return if filled.None? then RefusedValue else Canonical(filled.value);
    case Derived(proto, members) =>
      if proto != Null { return RefusedValue; }
      var filled := CanonicalizeMembers(members);
      return if filled.None? then RefusedValue else Canonical(filled.value);
    case _ => return Canonical(v);
  }

  /** The text to be hashed; none for values that are refused and for a bare undefined. */
  method StableJson(v: Value) returns (text: Option<Value>)
    requires KeysOnce(v)
    ensures text == if Plain(v) && v != Undefined then Some(Canon(v)) else None
  {
    var r := Canonicalize(v);
    if r == RefusedValue || r.value == Undefined {
      BuiltKind(v);
      return None;
    }
    CanonIsWritten(v);
    BuiltKind(v);
    return Some(Written(r.value));
  }

  method CanonicalizeItems(items: seq<Value>) returns (r: Option<seq<Value>>)
    requires forall i | 0 <= i < |items| :: KeysOnce(items[i])
    ensures r == if forall i | 0 <= i < |items| :: Plain(items[i]) then Some(BuiltItems(items)) else None
    decreases items
  {
    var mapped: seq<Value> := [];
    var i := 0;
    while i < |items|
      invariant 0 <= i <= |items| && (forall j | 0 <= j < i :: Plain(items[j]))
      invariant mapped == BuiltItems(items[..i])
    {
      var entry := Canonicalize(items[i]);
      if entry == RefusedValue { return None; }
      assert items[..i + 1][..i] == items[..i];
      mapped := mapped + [OrNull(entry.value)];
      i := i + 1;
    }
    assert items[..i] == items;
    return Some(mapped);
  }

  lemma Position(members: seq<Member>, m: Member) returns (k: nat)
    requires m in members
    ensures k < |members| && members[k] == m
  {
    k :| 0 <= k < |members| && members[k] == m;
  }

  lemma SortedMembers(members: seq<Member>, ordered: seq<Member>)
    requires ordered == Sort(members, KeyBefore)
    ensures |ordered| == |members| && forall j | 0 <= j < |ordered| :: ordered[j] in members
  {
    SortPermutes(members, KeyBefore);
    hide Sort;
    assert |multiset(ordered)| == |multiset(members)|;
    forall j | 0 <= j < |ordered| ensures ordered[j] in members {
      assert ordered[j] in multiset(ordered);
    }
  }

  lemma NothingFilled(members: seq<Member>)
    ensures BuiltMembers(members[..0]) == [] && Prototype(members[..0]) == None && AllPlain(members[..0])
  {
  }

  lemma FillNext(members: seq<Member>, i: nat)
    requires i < |members|
    ensures
      var m := members[i];
      && BuiltMembers(members[..i + 1]) == BuiltMembers(members[..i])
           + (if m.key == PROTO || Built(m.value) == Undefined then [] else [Member(m.key, Built(m.value))])
      && Prototype(members[..i + 1])
           == if m.key == PROTO && Settable(Built(m.value)) then Some(Built(m.value)) else Prototype(members[..i])
  {
    assert members[..i + 1][..i] == members[..i];
  }

  lemma PlainSoFar(members: seq<Member>, ordered: seq<Member>, i: nat)
    requires i < |ordered| && forall j | 0 <= j < |ordered| :: ordered[j] in members
    ensures AllPlain(ordered[..i + 1]) <==> AllPlain(ordered[..i]) && Plain(ordered[i].value)
    ensures !Plain(ordered[i].value) ==> !AllPlain(members)
  {
    var k := Position(members, ordered[i]);
    hide Plain;
    assert ordered[..i + 1] == ordered[..i] + [ordered[i]];
  }

  lemma OnceHere(members: seq<Member>, m: Member)
    requires m in members && forall i | 0 <= i < |members| :: KeysOnce(members[i].value)
    ensures KeysOnce(m.value) && (members decreases to m.value)
  {
    var k := Position(members, m);
    hide KeysOnce;
  }

  lemma NeverSettable(v: Value)
    requires Settable(v)
    ensures v != Undefined
  {
  }

  method CanonicalizeMembers(members: seq<Member>) returns (r: Option<Value>)
    requires DistinctBy(members, KeyOf()) && forall i | 0 <= i < |members| :: KeysOnce(members[i].value)
    ensures r == if AllPlain(members) then Some(Assembled(Sort(BuiltMembers(members), KeyBefore), Prototype(members))) else None
    decreases members
  {
    var ordered := Sort(members, KeyBefore);
    SortedMembers(members, ordered);
    hide *;
    var own: seq<Member>, proto: Option<Value> := [], None;
    var i := 0;
    NothingFilled(ordered);
    while i < |ordered|
      invariant 0 <= i <= |ordered| && AllPlain(ordered[..i])
      invariant own == BuiltMembers(ordered[..i]) && proto == Prototype(ordered[..i])
    {
      OnceHere(members, ordered[i]);
      PlainSoFar(members, ordered, i);
      var entry := Canonicalize(ordered[i].value);
      if entry == RefusedValue { return None; }
      FillNext(ordered, i);
      if Settable(entry.value) { NeverSettable(entry.value); }
      if entry.value != Undefined {
        if ordered[i].key == PROTO {
          if Settable(entry.value) { proto := Some(entry.value); }
        } else {
          own := own + [Member(ordered[i].key, entry.value)];
        }
      }
      i := i + 1;
    }
    assert ordered[..i] == ordered;
    OrderedFill(members, ordered);
    return Some(Assembled(own, proto));
  }

  /** Filling in key order gives the sorted members, and the prototype does not depend on the order. */
  lemma OrderedFill(members: seq<Member>, ordered: seq<Member>)
    requires DistinctBy(members, KeyOf()) && ordered == Sort(members, KeyBefore) && AllPlain(ordered)
    ensures BuiltMembers(ordered) == Sort(BuiltMembers(members), KeyBefore)
    ensures Prototype(ordered) == Prototype(members) && AllPlain(members)
  {
    hide *;
    SortPermutes(members, KeyBefore);
    DistinctPermutes(members, ordered, KeyOf());
    KeyOrder();
    SortSorted(members, KeyBefore);
    SameMembersArePlain(ordered, members);
    SamePrototype(members, ordered);
    BuiltDistinct(members);
    BuiltDistinct(ordered);
    forall m ensures m in BuiltMembers(ordered) <==> m in BuiltMembers(members) {
      if m in BuiltMembers(ordered) { SameSource(ordered, members, m); }
      if m in BuiltMembers(members) { SameSource(members, ordered, m); }
    }
    BuiltRises(ordered);
    SortAgrees(BuiltMembers(ordered), BuiltMembers(members));
    SortedIsFixed(BuiltMembers(ordered));
  }

  lemma SameMembersArePlain(a: seq<Member>, b: seq<Member>)
    requires AllPlain(a) && forall m :: m in b <==> m in a
    ensures AllPlain(b)
  {
    hide Plain;
    forall i | 0 <= i < |b| ensures Plain(b[i].value) {
      assert b[i] in b;
      var k := Position(a, b[i]);
    }
  }

  lemma SamePrototype(a: seq<Member>, b: seq<Member>)
    requires DistinctBy(a, KeyOf()) && DistinctBy(b, KeyOf()) && forall m :: m in b <==> m in a
    ensures Prototype(a) == Prototype(b)
  {
    PrototypeIs(a);
    PrototypeIs(b);
    hide Prototype, Built;
    if i :| 0 <= i < |a| && a[i].key == PROTO {
      assert a[i] in a;
      var k := Position(b, a[i]);
    } else if j :| 0 <= j < |b| && b[j].key == PROTO {
      assert b[j] in b;
      var k := Position(a, b[j]);
    }
  }

  lemma SameSource(a: seq<Member>, b: seq<Member>, m: Member)
    requires m in BuiltMembers(a) && forall x | x in a :: x in b
    ensures m in BuiltMembers(b)
  {
    var i := BuiltOrigin(a, m);
    assert a[i] in b;
    var j := Position(b, a[i]);
    BuiltIncludes(b, j);
  }

  lemma {:induction false} BuiltRises(members: seq<Member>)
    requires Sorted(members, KeyBefore)
    ensures Sorted(BuiltMembers(members), KeyBefore)
  {
    if members != [] {
      PrefixOrdered(members, KeyBefore);
      var front, last := members[..|members| - 1], members[|members| - 1];
      BuiltRises(front);
      var r := BuiltMembers(front);
      forall i | 0 <= i < |r| ensures !KeyBefore(Member(last.key, Built(last.value)), r[i]) {
        var k := BuiltOrigin(front, r[i]);
        assert !KeyBefore(members[|members| - 1], members[k]);
      }
    }
  }
}
