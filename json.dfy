/**
  Values produced by `JSON.parse`, their JavaScript truthiness, and the property
  reads (`v.name`, `v[0]`, `v?.name`) the relay performs on them.
 */
module JsonValue {
  import opened Wrappers

  /** A parsed JSON value. Numbers are kept as exact reals. */
  datatype Json =
    | Null
    | Bool(b: bool)
    | Num(n: real)
    | Str(s: string)
    | Arr(elems: seq<Json>)
    | Obj(members: seq<Member>)

  /** One `"key": value` pair of an object literal, in text order; keys may repeat. */
  datatype Member = Member(key: string, value: Json)

  /** What `JSON.parse` makes of a text: a value, or a thrown SyntaxError. */
  datatype ParseResult = SyntaxError | Parsed(value: Json)

  /** JavaScript truthiness: `null`, `false`, `0` and `""` are falsy, arrays and objects never are. */
  predicate Truthy(v: Json) {
    match v
    case Null => false
    case Bool(b) => b
    case Num(n) => n != 0.0
    case Str(s) => s != ""
    case Arr(_) => true
    case Obj(_) => true
  }

  /**
    The properties of the object `JSON.parse` builds from `ms`: each member is
    assigned in text order, so a later duplicate key overwrites an earlier one.
   */
  function Assigned(ms: seq<Member>): (m: map<string, Json>)
    ensures forall i :: 0 <= i < |ms| ==> ms[i].key in m
    ensures forall k :: k in m ==> exists i :: 0 <= i < |ms| && ms[i] == Member(k, m[k])
  {
    if ms == [] then map[]
    else
      var init, last := ms[..|ms| - 1], ms[|ms| - 1];
      var m := Assigned(init)[last.key := last.value];
      assert forall i :: 0 <= i < |init| ==> init[i] == ms[i];
      m
  }

  /** The value of the last member named `key`, or `None` when no member has that name. */
  function LastValue(ms: seq<Member>, key: string): (r: Option<Json>)
    ensures r.None? <==> forall i :: 0 <= i < |ms| ==> ms[i].key != key
    ensures r.Some? ==> exists i :: 0 <= i < |ms| && ms[i] == Member(key, r.value)
                          && forall j :: i < j < |ms| ==> ms[j].key != key
  {
    if ms == [] then None
    else
      var later := LastValue(ms[1..], key);
      assert forall j :: 1 <= j < |ms| ==> ms[j] == ms[1..][j - 1];
      if later.Some? then later
      else if ms[0].key == key then Some(ms[0].value)
      else None
  }

  /** Appending a member makes it the one a lookup of its key finds. */
  lemma {:induction false} LastValueAppend(init: seq<Member>, m: Member, key: string)
    ensures LastValue(init + [m], key) == if m.key == key then Some(m.value) else LastValue(init, key)
  {
    if init == [] {
      assert (init + [m])[1..] == [];
    } else {
      assert (init + [m])[1..] == init[1..] + [m];
      LastValueAppend(init[1..], m, key);
    }
  }

  /** Looking up the last member with a key reads exactly the property `JSON.parse` assigned. */
  lemma {:induction false} LastValueIsAssigned(ms: seq<Member>, key: string)
    ensures LastValue(ms, key) == if key in Assigned(ms) then Some(Assigned(ms)[key]) else None
  {
    if ms != [] {
      var init, last := ms[..|ms| - 1], ms[|ms| - 1];
      assert ms == init + [last];
      LastValueAppend(init, last, key);
      LastValueIsAssigned(init, key);
    }
  }

  /** A key carried by exactly one member is looked up to that member's value. */
  lemma LastValueOfSoleKey(ms: seq<Member>, i: int, key: string)
    requires 0 <= i < |ms| && ms[i].key == key
    requires forall j :: 0 <= j < |ms| && j != i ==> ms[j].key != key
    ensures LastValue(ms, key) == Some(ms[i].value)
  {
  }

  /** The outcome of evaluating a property read: `undefined`, a value, or a thrown TypeError. */
  datatype Read = Undefined | Found(value: Json) | Throws

  /** A value read is truthy: `undefined` is falsy. */
  predicate ReadTruthy(r: Read) {
    r.Found? && Truthy(r.value)
  }

  /**
    The property names the relay reads. None of them is an array index or a
    property that strings, arrays or plain objects inherit, so only an object's
    own members can supply them.
   */
  predicate RelayName(name: string) {
    name in {"message", "error", "choices", "content"}
  }

  /** `v.name` (also `const { name } = v`): throws on `null`, finds only an object's own member. */
  function Get(v: Json, name: string): (r: Read)
    requires RelayName(name)
    ensures r.Throws? <==> v.Null?
    ensures r.Found? <==> v.Obj? && exists i :: 0 <= i < |v.members| && v.members[i].key == name
    ensures r.Found? ==> Some(r.value) == LastValue(v.members, name)
  {
    match v
    case Null => Throws
    case Obj(ms) => (
      match LastValue(ms, name)
      case Some(x) => Found(x)
      case None => Undefined)
    case _ => Undefined
  }

  /** `v[0]`: the first element of an array, member `"0"` of an object, the first unit of a string. */
  function GetFirst(v: Json): (r: Read)
    ensures r.Throws? <==> v.Null?
    ensures v.Arr? ==> r == if v.elems == [] then Undefined else Found(v.elems[0])
    ensures v.Obj? ==> (r.Found? <==> LastValue(v.members, "0").Some?)
                       && (r.Found? ==> Some(r.value) == LastValue(v.members, "0"))
    ensures v.Str? ==> r == if v.s == "" then Undefined else Found(Str([v.s[0]]))
    ensures r.Found? ==> v.Arr? || v.Obj? || v.Str?
  {
    match v
    case Null => Throws
    case Arr(es) => if es == [] then Undefined else Found(es[0])
    case Obj(ms) => (
      match LastValue(ms, "0")
      case Some(x) => Found(x)
      case None => Undefined)
    case Str(s) => if s == "" then Undefined else Found(Str([s[0]]))
    case _ => Undefined
  }

  /** `base?.name`: `undefined` when `base` is `null` or `undefined`, never a throw. */
  function GetOptional(base: Read, name: string): (r: Read)
    requires RelayName(name)
    requires !base.Throws?
    ensures !r.Throws?
    ensures base.Undefined? || base == Found(Null) ==> r.Undefined?
    ensures r.Found? ==> base.Found? && base.value.Obj?
                         && Some(r.value) == LastValue(base.value.members, name)
    ensures base.Found? && base.value.Obj? && LastValue(base.value.members, name).Some? ==>
              r == Found(LastValue(base.value.members, name).value)
  {
    if base.Found? && !base.value.Null? then Get(base.value, name) else Undefined
  }
}
