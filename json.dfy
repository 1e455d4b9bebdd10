/** The dynamic objects that the profile pages read from `/auth/me` and edit:
    JavaScript values without arrays, their truthiness, dotted-path lookup
    (`getNestedValue`), dotted-path update (the nested setter of `handleChange`)
    and the display rule `show`. `undefined` is `None`, or a key that is absent. */
module Json {
  import opened Common
  import opened Strings

  datatype Json = JNull | JBool(b: bool) | JNum(n: int) | JStr(s: string) | JObj(fields: map<string, Json>)

  type Object = map<string, Json>

  /** JavaScript truthiness: undefined, null, false, 0 and "" are falsy. */
  predicate Truthy(v: Option<Json>)
  {
    match v
    case None => false
    case Some(JNull) => false
    case Some(JBool(b)) => b
    case Some(JNum(n)) => n != 0
    case Some(JStr(s)) => s != ""
    case Some(JObj(_)) => true
  }

  /** `obj[key]` on an object, undefined when the key is absent. */
  function Field(obj: Object, key: string): Option<Json>
  {
    if key in obj then Some(obj[key]) else None
  }

  /** `acc?.[part]`: undefined unless `acc` is an object that has `part`. */
  function Member(acc: Option<Json>, part: string): (r: Option<Json>)
    ensures r.Some? ==> acc.Some? && acc.value.JObj? && part in acc.value.fields
  {
    if acc.Some? && acc.value.JObj? then Field(acc.value.fields, part) else None
  }

  /** `parts.reduce((acc, part) => acc?.[part], acc)`. */
  function Lookup(acc: Option<Json>, parts: seq<string>): (r: Option<Json>)
    ensures acc.None? ==> r.None?
    ensures parts == [] ==> r == acc
    decreases |parts|
  {
    if parts == [] then acc else Lookup(Member(acc, parts[0]), parts[1..])
  }

  /** Looking up a path in two steps is looking up the joined path; together with
      Lookup's contract, a missing component makes the whole lookup undefined. */
  lemma {:induction false} LookupAppend(acc: Option<Json>, a: seq<string>, b: seq<string>)
    ensures Lookup(acc, a + b) == Lookup(Lookup(acc, a), b)
    decreases |a|
  {
    if a == [] {
      assert a + b == b;
    } else {
      assert (a + b)[1..] == a[1..] + b;
      LookupAppend(Member(acc, a[0]), a[1..], b);
    }
  }

  /** `getNestedValue(obj, path)`: follow the '.'-separated components of `path`. */
  function GetNestedValue(obj: Object, path: string): (r: Option<Json>)
    ensures '.' !in path ==> r == Field(obj, path)
  {
    if '.' !in path then
      SplitPrefix(path, "", '.');
      Lookup(Some(JObj(obj)), Split(path, '.'))
    else Lookup(Some(JObj(obj)), Split(path, '.'))
  }

  /** A dotted path is read one component at a time: `a.rest` is `rest` read below
      the field `a`. */
  lemma {:induction false} GetNestedValueStep(obj: Object, a: string, rest: string)
    requires '.' !in a
    ensures GetNestedValue(obj, a + "." + rest) == Lookup(Field(obj, a), Split(rest, '.'))
  {
    SplitPrefix(a, rest, '.');
    assert a + "." + rest == a + ['.'] + rest;
  }

  /** The state of one step of the nested setter: an intermediate that is absent or
      falsy is replaced by `{}`, an object is walked into, and any other truthy value
      is a primitive, on which creating a property throws a TypeError (modules run in
      strict mode). `None` stands for that TypeError. */
  function Descend(obj: Object, key: string): Option<Object>
  {
    var cur := Field(obj, key);
    if !Truthy(cur) then Some(map[])
    else if cur.value.JObj? then Some(cur.value.fields)
    else None
  }

  /** The value that the nested setter of `handleChange` leaves in the top-level
      object when it writes `v` at the path `parts`, or `None` when it throws. */
  function SetPath(obj: Object, parts: seq<string>, v: Json): (r: Option<Object>)
    requires |parts| >= 1
    ensures r.Some? ==> Lookup(Some(JObj(r.value)), parts) == Some(v)
    ensures r.Some? ==> parts[0] in r.value && r.value.Keys == obj.Keys + {parts[0]}
    ensures r.Some? ==> forall k :: k in obj && k != parts[0] ==> r.value[k] == obj[k]
    decreases |parts|
  {
    if |parts| == 1 then Some(obj[parts[0] := v])
    else
      match Descend(obj, parts[0])
      case None => None
      case Some(next) =>
        match SetPath(next, parts[1..], v)
        case None => None
        case Some(child) => Some(obj[parts[0] := JObj(child)])
  }

  /** The setter fails only by meeting a truthy primitive on the way down. */
  lemma {:induction false} SetPathFailsOnPrimitive(obj: Object, parts: seq<string>, v: Json)
    requires |parts| >= 1
    requires SetPath(obj, parts, v).None?
    ensures exists i :: 1 <= i < |parts| && Truthy(Lookup(Some(JObj(obj)), parts[..i]))
                        && !Lookup(Some(JObj(obj)), parts[..i]).value.JObj?
    decreases |parts|
  {
    var cur := Field(obj, parts[0]);
    assert Lookup(Some(JObj(obj)), parts[..1]) == cur by {
      assert parts[..1][1..] == [];
    }
    match Descend(obj, parts[0])
    case None =>
      assert Truthy(Lookup(Some(JObj(obj)), parts[..1]));
    case Some(next) =>
      if !Truthy(cur) {
        // a fresh `{}` never blocks
        EmptySetPathSucceeds(parts[1..], v);
        assert false;
      }
      SetPathFailsOnPrimitive(next, parts[1..], v);
      var i :| 1 <= i < |parts[1..]| && Truthy(Lookup(Some(JObj(next)), parts[1..][..i]))
               && !Lookup(Some(JObj(next)), parts[1..][..i]).value.JObj?;
      assert parts[..i + 1] == [parts[0]] + parts[1..][..i];
      LookupAppend(Some(JObj(obj)), [parts[0]], parts[1..][..i]);
      assert Lookup(Some(JObj(obj)), [parts[0]]) == Some(JObj(next));
  }

  /** Conversely, a truthy primitive at a proper prefix of the path makes the setter
      throw: every component before it is an object, so the walk reaches it. */
  lemma {:induction false} PrimitiveBlocksSetPath(obj: Object, parts: seq<string>, v: Json, i: nat)
    requires 1 <= i < |parts|
    requires Truthy(Lookup(Some(JObj(obj)), parts[..i]))
    requires !Lookup(Some(JObj(obj)), parts[..i]).value.JObj?
    ensures SetPath(obj, parts, v).None?
    decreases i
  {
    var cur := Field(obj, parts[0]);
    assert parts[..i] == [parts[0]] + parts[1..][..i - 1];
    LookupAppend(Some(JObj(obj)), [parts[0]], parts[1..][..i - 1]);
    assert Lookup(Some(JObj(obj)), [parts[0]]) == cur;
    if i > 1 {
      // below an undefined or primitive value the lookup would be undefined
      assert cur.Some? && cur.value.JObj? by {
        assert Lookup(cur, parts[1..][..i - 1]) == Lookup(Member(cur, parts[1]), parts[2..i]);
      }
      PrimitiveBlocksSetPath(cur.value.fields, parts[1..], v, i - 1);
    }
  }

  /** Writing below a fresh empty object always succeeds. */
  lemma {:induction false} EmptySetPathSucceeds(parts: seq<string>, v: Json)
    requires |parts| >= 1
    ensures SetPath(map[], parts, v).Some?
  {
    if |parts| > 1 {
      EmptySetPathSucceeds(parts[1..], v);
    }
  }

  /** The setter leaves every path that branches off `parts` as it was: a path that
      agrees with `parts` on its first `i` components and differs at component `i`. */
  lemma {:induction false} SetPathKeepsOtherPaths(obj: Object, parts: seq<string>, v: Json, q: seq<string>, i: nat)
    requires |parts| >= 1 && i < |parts| && i < |q|
    requires q[..i] == parts[..i] && q[i] != parts[i]
    requires SetPath(obj, parts, v).Some?
    ensures Lookup(Some(JObj(SetPath(obj, parts, v).value)), q) == Lookup(Some(JObj(obj)), q)
    decreases |parts|
  {
    var r := SetPath(obj, parts, v).value;
    if i == 0 {
      assert Member(Some(JObj(r)), q[0]) == Member(Some(JObj(obj)), q[0]);
    } else {
      var next := Descend(obj, parts[0]).value;
      var child := SetPath(next, parts[1..], v).value;
      assert q[0] == parts[0] by { assert q[..i][0] == parts[..i][0]; }
      assert Member(Some(JObj(r)), q[0]) == Some(JObj(child));
      SetPathKeepsOtherPaths(next, parts[1..], v, q[1..], i - 1);
      assert q[1..][..i - 1] == q[..i][1..];
      assert parts[1..][..i - 1] == parts[..i][1..];
      // the old value along q: either the object we walked into, or a falsy
      // value that, like the fresh `{}` replacing it, has nothing below it
      var old0 := Member(Some(JObj(obj)), q[0]);
      if Truthy(old0) {
        assert old0 == Some(JObj(next));
      } else {
        EmptyLookupBelowFalsy(old0, q[1..]);
        EmptyLookup(q[1..]);
      }
    }
  }

  /** Below a falsy value, every non-empty path is undefined. */
  lemma EmptyLookupBelowFalsy(acc: Option<Json>, q: seq<string>)
    requires !Truthy(acc) && q != []
    ensures Lookup(acc, q) == None
  {
    assert Member(acc, q[0]) == None;
  }

  /** Below a fresh empty object, every non-empty path is undefined. */
  lemma EmptyLookup(q: seq<string>)
    requires q != []
    ensures Lookup(Some(JObj(map[])), q) == None
  {
    assert Member(Some(JObj(map[])), q[0]) == None;
  }

  /** The value an edit box shows: `value || ""`. */
  function InputValue(v: Option<Json>): (r: Json)
    ensures Truthy(v) ==> r == v.value
    ensures !Truthy(v) ==> r == JStr("")
  {
    if Truthy(v) then v.value else JStr("")
  }

  /** `show(val)`: "NA" for every falsy value, the JSON text of an object (the
      formatting of `JSON.stringify` is a parameter), and `String(val)` otherwise. */
  function Show(val: Option<Json>, stringify: Json -> string): (r: string)
    ensures !Truthy(val) ==> r == "NA"
    ensures Truthy(val) && val.value.JObj? ==> r == stringify(val.value)
    ensures Truthy(val) && val.value.JStr? ==> r == val.value.s
    ensures val == Some(JBool(true)) ==> r == "true"
    ensures Truthy(val) && val.value.JNum? ==> r == IntToString(val.value.n)
  {
    if !Truthy(val) then "NA"
    else match val.value
      case JObj(_) => stringify(val.value)
      case JStr(s) => s
      case JBool(b) => "true"
      case JNum(n) => IntToString(n)
      case JNull => "null"
  }
}
