/** Loaded YAML and TOML documents as nested values, with Python's item
    lookup (`d[k]`, `l[i]`) and item assignment (`...[k] = x`) on them. */
module Docs {

  import opened Base
  import opened PyStr

  datatype Value =
    | Null
    | Bool(b: bool)
    | Int(i: int)
    | Str(s: string)
    | List(items: seq<Value>)
    | Table(fields: map<string, Value>)

  /** Python truthiness: `None`, `False`, `0`, `""`, `[]` and `{}` are false. */
  predicate Truthy(v: Value) {
    match v
    case Null => false
    case Bool(b) => b
    case Int(i) => i != 0
    case Str(s) => s != []
    case List(items) => items != []
    case Table(fields) => fields != map[]
  }

  /** One subscript: a mapping key or a list position. */
  datatype Step = Key(k: string) | At(i: nat)

  type Path = seq<Step>

  /** `v[s]`: a missing key is a `KeyError`, a position past the end an
      `IndexError`, and subscripting something that does not support it a
      `TypeError`. A string subscripted by a position yields that character. */
  function Child(v: Value, s: Step): (r: Result<Value>)
    ensures r.Ok? ==> (v.Table? && s.Key?) || (v.List? && s.At?) || (v.Str? && s.At?)
  {
    match s
    case Key(k) =>
      if v.Table? then (if k in v.fields then Ok(v.fields[k]) else Raise(KeyError))
      else Raise(TypeError)
    case At(i) =>
      if v.List? then (if i < |v.items| then Ok(v.items[i]) else Raise(IndexError))
      else if v.Str? then (if i < |v.s| then Ok(Str([v.s[i]])) else Raise(IndexError))
      else if v.Table? then Raise(KeyError)
      else Raise(TypeError)
  }

  /** `v[p0][p1]...`: the subscripts applied left to right. */
  function Get(v: Value, path: Path): Result<Value>
    decreases |path|
  {
    if path == [] then Ok(v)
    else
      match Child(v, path[0])
      case Raise(e) => Raise(e)
      case Ok(c) => Get(c, path[1..])
  }

  /** `v` with the child at `s` replaced by `c`; only used where `Child(v, s)`
      exists and is not a character of a string. */
  function WithChild(v: Value, s: Step, c: Value): Value {
    match s
    case Key(k) => if v.Table? then Table(v.fields[k := c]) else v
    case At(i) => if v.List? && i < |v.items| then List(v.items[i := c]) else v
  }

  /** `v[p0]...[pn][k] = x`: the container at `path` must exist and be a
      mapping; the key is then set, whether or not it was there. */
  function SetKey(v: Value, path: Path, k: string, x: Value): Result<Value>
    decreases |path|
  {
    if path == [] then
      if v.Table? then Ok(Table(v.fields[k := x])) else Raise(TypeError)
    else
      match Child(v, path[0])
      case Raise(e) => Raise(e)
      case Ok(c) =>
        if v.Str? then Raise(TypeError)
        else
          match SetKey(c, path[1..], k, x)
          case Raise(e) => Raise(e)
          case Ok(c') => Ok(WithChild(v, path[0], c'))
  }

  /** The assignment succeeds exactly when the container at `path` is a
      mapping. */
  lemma {:induction false} SetKeySucceeds(v: Value, path: Path, k: string, x: Value)
    ensures SetKey(v, path, k, x).Ok? <==> (Get(v, path).Ok? && Get(v, path).value.Table?)
    decreases |path|
  {
    if path != [] {
      match Child(v, path[0])
      case Raise(e) =>
      case Ok(c) =>
        SetKeySucceeds(c, path[1..], k, x);
        if v.Str? {
          assert c.Str? && |c.s| == 1;
          StrHasOnlyChars(c, path[1..]);
        }
    }
  }

  /** Under a one-character string nothing is a mapping. */
  lemma {:induction false} StrHasOnlyChars(c: Value, path: Path)
    requires c.Str?
    ensures Get(c, path).Ok? ==> Get(c, path).value.Str?
    decreases |path|
  {
    if path != [] {
      match Child(c, path[0])
      case Raise(e) =>
      case Ok(d) => StrHasOnlyChars(d, path[1..]);
    }
  }

  /** After the assignment the key holds the new value. */
  lemma {:induction false} GetAfterSetKey(v: Value, path: Path, k: string, x: Value)
    requires SetKey(v, path, k, x).Ok?
    ensures Get(SetKey(v, path, k, x).value, path + [Key(k)]) == Ok(x)
    decreases |path|
  {
    var v' := SetKey(v, path, k, x).value;
    if path == [] {
      assert [Key(k)][1..] == [];
    } else {
      var c := Child(v, path[0]).value;
      GetAfterSetKey(c, path[1..], k, x);
      assert (path + [Key(k)])[1..] == path[1..] + [Key(k)];
      assert Child(v', path[0]) == Ok(SetKey(c, path[1..], k, x).value);
    }
  }

  /** Two paths part ways: at some depth within both they take different steps. */
  predicate Diverge(p: Path, q: Path)
    decreases |p|
  {
    |p| > 0 && |q| > 0 && (p[0] != q[0] || Diverge(p[1..], q[1..]))
  }

  lemma ChildOfWithChild(v: Value, s: Step, c: Value, t: Step)
    requires Child(v, s).Ok? && !v.Str? && s != t
    ensures Child(WithChild(v, s, c), t) == Child(v, t)
  {
  }

  /** Nothing else changes: every path that parts ways with the assigned one
      reads the same value (or the same error) before and after. */
  lemma {:induction false} SetKeyFrame(v: Value, path: Path, k: string, x: Value, q: Path)
    requires SetKey(v, path, k, x).Ok?
    requires Diverge(path + [Key(k)], q)
    ensures Get(SetKey(v, path, k, x).value, q) == Get(v, q)
    decreases |path|
  {
    var v' := SetKey(v, path, k, x).value;
    if path == [] {
      assert q[0] != Key(k);
      assert Child(v', q[0]) == Child(v, q[0]);
    } else {
      var c := Child(v, path[0]).value;
      var c' := SetKey(c, path[1..], k, x).value;
      assert (path + [Key(k)])[1..] == path[1..] + [Key(k)];
      if q[0] == path[0] {
        assert Child(v', q[0]) == Ok(c');
        SetKeyFrame(c, path[1..], k, x, q[1..]);
      } else {
        ChildOfWithChild(v, path[0], c', q[0]);
      }
    }
  }

  lemma GetTwo(v: Value, a: Step, b: Step)
    ensures Get(v, [a, b]) == match Child(v, a) case Raise(e) => Raise(e) case Ok(c) => Child(c, b)
  {
    assert [a, b][1..] == [b];
    assert [b][1..] == [];
    match Child(v, a)
    case Raise(e) =>
    case Ok(c) =>
      match Child(c, b)
      case Raise(e) =>
      case Ok(d) => assert Get(d, []) == Ok(d);
  }

  /** `doc.get(section, {})`, a section that is not a table being read as empty. */
  function Section(doc: Value, section: string): map<string, Value> {
    if doc.Table? && section in doc.fields && doc.fields[section].Table?
    then doc.fields[section].fields else map[]
  }

  /** `m.get(key)`, kept only when it is a string (the model treats a
      non-string value read as a string as absent). */
  function Field(m: map<string, Value>, key: string): (r: Option<string>)
    ensures r.Some? <==> key in m && m[key].Str?
    ensures r.Some? ==> m[key] == Str(r.value)
  {
    if key in m && m[key].Str? then Some(m[key].s) else None
  }

  /** `doc.get(section, {}).get(key)` read as a string. */
  function Lookup(doc: Value, section: string, key: string): (r: Option<string>)
    ensures r.Some? <==> Get(doc, [Key(section), Key(key)]).Ok? && Get(doc, [Key(section), Key(key)]).value.Str?
    ensures r.Some? ==> Get(doc, [Key(section), Key(key)]).value == Str(r.value)
  {
    GetTwo(doc, Key(section), Key(key));
    Field(Section(doc, section), key)
  }

  /** A present string value is truthy exactly when it is non-empty. */
  predicate Given(o: Option<string>) {
    o.Some? && o.value != []
  }

  /** `v[p0]...[pn]` where the source needs a string: a value of another
      type fails with `TypeError`. */
  function GetStr(v: Value, path: Path): (r: Result<string>)
    ensures r.Ok? <==> Get(v, path).Ok? && Get(v, path).value.Str?
    ensures r.Ok? ==> Get(v, path) == Ok(Str(r.value))
    ensures Get(v, path).Raise? ==> r == Raise(Get(v, path).exc)
  {
    match Get(v, path)
    case Raise(e) => Raise(e)
    case Ok(x) => if x.Str? then Ok(x.s) else Raise(TypeError)
  }

  /** Assigning into something that is there but is not a mapping is a `TypeError`. */
  lemma {:induction false} SetKeyTypeError(v: Value, path: Path, k: string, x: Value)
    requires Get(v, path).Ok? && !Get(v, path).value.Table?
    ensures SetKey(v, path, k, x) == Raise(TypeError)
    decreases |path|
  {
    if path != [] {
      var c := Child(v, path[0]).value;
      if !v.Str? {
        SetKeyTypeError(c, path[1..], k, x);
      }
    }
  }

  lemma SetKeyFrameAll(v: Value, path: Path, k: string, x: Value)
    requires SetKey(v, path, k, x).Ok?
    ensures forall q :: Diverge(path + [Key(k)], q) ==> Get(SetKey(v, path, k, x).value, q) == Get(v, q)
  {
    forall q | Diverge(path + [Key(k)], q) ensures Get(SetKey(v, path, k, x).value, q) == Get(v, q) {
      SetKeyFrame(v, path, k, x, q);
    }
  }

  /** The statement `v[p0]...[pn][k] = x`: the container is looked up first,
      so a failed lookup raises its own error; a container that is not a
      mapping is a `TypeError`. Afterwards `k` holds `x` and every path that
      parts ways with the assigned one reads as before. */
  function Assign(v: Value, path: Path, k: string, x: Value): (r: Result<Value>)
    ensures r.Ok? <==> Get(v, path).Ok? && Get(v, path).value.Table?
    ensures Get(v, path).Raise? ==> r == Raise(Get(v, path).exc)
    ensures Get(v, path).Ok? && !Get(v, path).value.Table? ==> r == Raise(TypeError)
    ensures r.Ok? ==> Get(r.value, path + [Key(k)]) == Ok(x)
    ensures r.Ok? ==> forall q :: Diverge(path + [Key(k)], q) ==> Get(r.value, q) == Get(v, q)
  {
    match Get(v, path)
    case Raise(e) => Raise(e)
    case Ok(c) =>
      SetKeySucceeds(v, path, k, x);
      if c.Table? then
        GetAfterSetKey(v, path, k, x);
        SetKeyFrameAll(v, path, k, x);
        SetKey(v, path, k, x)
      else
        SetKeyTypeError(v, path, k, x);
        SetKey(v, path, k, x)
  }

  /** After the assignment the container is the old one with the key set. */
  lemma AssignAt(v: Value, p: Path, k: string, x: Value)
    requires Assign(v, p, k, x).Ok?
    ensures Get(Assign(v, p, k, x).value, p) == Ok(Table(Get(v, p).value.fields[k := x]))
  {
    SetKeyAt(v, p, k, x);
  }

  lemma {:induction false} SetKeyAt(v: Value, p: Path, k: string, x: Value)
    requires SetKey(v, p, k, x).Ok?
    ensures Get(v, p).Ok? && Get(v, p).value.Table?
    ensures Get(SetKey(v, p, k, x).value, p) == Ok(Table(Get(v, p).value.fields[k := x]))
    decreases |p|
  {
    SetKeySucceeds(v, p, k, x);
    if p != [] {
      var c := Child(v, p[0]).value;
      SetKeyAt(c, p[1..], k, x);
      var v' := SetKey(v, p, k, x).value;
      assert Child(v', p[0]) == Ok(SetKey(c, p[1..], k, x).value);
    }
  }

  /** Two keys set one after the other in the same container: both hold
      their values, every path that parts ways with both keys reads as
      before (the container's other keys included), and so nothing outside
      the container changes. */
  lemma AssignTwo(v: Value, p: Path, k1: string, x1: Value, k2: string, x2: Value)
    requires k1 != k2
    requires Assign(v, p, k1, x1).Ok? && Assign(Assign(v, p, k1, x1).value, p, k2, x2).Ok?
    ensures var d := Assign(Assign(v, p, k1, x1).value, p, k2, x2).value;
      && Get(d, p + [Key(k1)]) == Ok(x1)
      && Get(d, p + [Key(k2)]) == Ok(x2)
      && (forall q :: Diverge(p + [Key(k1)], q) && Diverge(p + [Key(k2)], q) ==> Get(d, q) == Get(v, q))
      && forall q :: Diverge(p, q) ==> Get(d, q) == Get(v, q)
  {
    var v1 := Assign(v, p, k1, x1).value;
    var d := Assign(v1, p, k2, x2).value;
    DivergeAfter(p, Key(k2), Key(k1), [], []);
    assert p + [Key(k2)] + [] == p + [Key(k2)];
    assert p + [Key(k1)] + [] == p + [Key(k1)];
    forall q | Diverge(p, q) ensures Get(d, q) == Get(v, q) {
      DivergeBelow(p, [Key(k1)], q);
      DivergeBelow(p, [Key(k2)], q);
    }
  }

  /** Two assignments into different places: both keys hold their values,
      and every path that parts ways with both reads as before. */
  lemma AssignBoth(v: Value, p1: Path, k1: string, x1: Value, p2: Path, k2: string, x2: Value)
    requires Diverge(p1 + [Key(k1)], p2) && Diverge(p2 + [Key(k2)], p1 + [Key(k1)])
    requires Assign(v, p1, k1, x1).Ok?
    ensures var v1 := Assign(v, p1, k1, x1).value;
      Get(v1, p2) == Get(v, p2)
    ensures var v1 := Assign(v, p1, k1, x1).value;
      Assign(v1, p2, k2, x2).Ok? ==>
        var d := Assign(v1, p2, k2, x2).value;
        && Get(d, p1 + [Key(k1)]) == Ok(x1)
        && Get(d, p2 + [Key(k2)]) == Ok(x2)
        && forall q :: Diverge(p1 + [Key(k1)], q) && Diverge(p2 + [Key(k2)], q) ==> Get(d, q) == Get(v, q)
  {
  }

  /** A path that parts ways with `p` parts ways with everything below `p`. */
  lemma {:induction false} DivergeBelow(p: Path, ext: Path, q: Path)
    requires Diverge(p, q)
    ensures Diverge(p + ext, q)
    decreases |p|
  {
    assert (p + ext)[0] == p[0];
    if p[0] == q[0] {
      assert (p + ext)[1..] == p[1..] + ext;
      DivergeBelow(p[1..], ext, q[1..]);
    }
  }

  /** Looking up a path in two parts. */
  lemma {:induction false} GetAppend(v: Value, p: Path, q: Path)
    ensures Get(v, p + q) == match Get(v, p) case Raise(e) => Raise(e) case Ok(c) => Get(c, q)
    decreases |p|
  {
    if p == [] {
      assert p + q == q;
    } else {
      assert (p + q)[0] == p[0];
      assert (p + q)[1..] == p[1..] + q;
      match Child(v, p[0])
      case Raise(e) =>
      case Ok(c) => GetAppend(c, p[1..], q);
    }
  }

  /** Two paths with a common prefix and then different steps part ways. */
  lemma {:induction false} DivergeAfter(p: Path, a: Step, b: Step, ra: Path, rb: Path)
    requires a != b
    ensures Diverge(p + [a] + ra, p + [b] + rb)
    decreases |p|
  {
    if p == [] {
      assert ([] + [a] + ra)[0] == a;
      assert ([] + [b] + rb)[0] == b;
    } else {
      assert (p + [a] + ra)[1..] == p[1..] + [a] + ra;
      assert (p + [b] + rb)[1..] == p[1..] + [b] + rb;
      DivergeAfter(p[1..], a, b, ra, rb);
    }
  }

  /** Python's `x in v`: a key of a mapping, an element of a list, a
      substring of a string; anything else raises `TypeError`. */
  function In(x: string, v: Value): (r: Result<bool>)
    ensures v.Table? ==> r == Ok(x in v.fields)
    ensures v.List? ==> r == Ok(Str(x) in v.items)
    ensures v.Str? ==> r == Ok(Contains(v.s, x))
    ensures r.Raise? <==> !(v.Table? || v.List? || v.Str?)
  {
    match v
    case Table(m) => Ok(x in m)
    case List(items) => Ok(Str(x) in items)
    case Str(s) => Ok(Contains(s, x))
    case _ => Raise(TypeError)
  }
}
