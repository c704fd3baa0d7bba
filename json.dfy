/** Parsed JSON documents as the game feed delivers them, and the few Python
    operations the extractors apply to them: subscripting `x[k]`, iteration
    `for e in x`, `len(x)` and the comparison `a > b`.  Every operation that
    would raise in Python (KeyError, IndexError, TypeError) yields `None`. */
module Json {

  datatype Option<+T> = None | Some(value: T) {
    predicate IsFailure() { None? }
    function PropagateFailure<U>(): Option<U> requires None? { None }
    function Extract(): T requires Some? { value }
  }

  /** A JSON value.  An object is a Python dict: its fields in insertion
      order, with distinct keys.  JSON numbers are integers here. */
  datatype Json =
    | JNull
    | JBool(b: bool)
    | JInt(i: int)
    | JStr(s: string)
    | JList(items: seq<Json>)
    | JObj(fields: seq<(string, Json)>)

  /** The keys of a field sequence, in order. */
  function Keys(fields: seq<(string, Json)>): (ks: seq<string>)
    ensures |ks| == |fields|
    ensures forall i :: 0 <= i < |fields| ==> ks[i] == fields[i].0
  {
    if fields == [] then [] else [fields[0].0] + Keys(fields[1..])
  }

  /** No key occurs twice, as in a Python dict. */
  ghost predicate DistinctKeys(fields: seq<(string, Json)>) {
    forall i, j :: 0 <= i < j < |fields| ==> fields[i].0 != fields[j].0
  }

  /** The value stored under key `k` (the first field with that key). */
  function Lookup(fields: seq<(string, Json)>, k: string): Option<Json>
    decreases |fields|
  {
    if fields == [] then None
    else if fields[0].0 == k then Some(fields[0].1)
    else Lookup(fields[1..], k)
  }

  /** A key has a value exactly when it is one of the keys. */
  lemma {:induction false} LookupKeys(fields: seq<(string, Json)>, k: string)
    ensures Lookup(fields, k).Some? <==> k in Keys(fields)
    decreases |fields|
  {
    if fields != [] {
      LookupKeys(fields[1..], k);
      assert Keys(fields) == [fields[0].0] + Keys(fields[1..]);
    }
  }

  /** Python's integer view of a subscript: an int, or a bool (True is 1). */
  function AsIndex(k: Json): Option<int> {
    match k
    case JInt(i) => Some(i)
    case JBool(b) => Some(if b then 1 else 0)
    case _ => None
  }

  /** Python's rule for `s[i]` on a sequence of length n: negative indices
      count from the end; anything outside [-n, n) raises IndexError. */
  function Position(i: int, n: nat): (r: Option<nat>)
    ensures r.Some? <==> -(n as int) <= i < n
    ensures r.Some? ==> r.value < n && (r.value == i || r.value == i + n)
  {
    if 0 <= i < n then Some(i) else if -(n as int) <= i < 0 then Some(i + n) else None
  }

  /** Python's `x[k]` on JSON values.  Dict keys are strings, so a non-string
      subscript of an object raises KeyError; a string subscripted by an
      integer gives a one-character string. */
  function Subscript(x: Json, k: Json): Option<Json> {
    match x
    case JObj(fs) => if k.JStr? then Lookup(fs, k.s) else None
    case JList(xs) =>
      var i :- AsIndex(k);
      var p :- Position(i, |xs|);
      Some(xs[p])
    case JStr(s) =>
      var i :- AsIndex(k);
      var p :- Position(i, |s|);
      Some(JStr([s[p]]))
    case _ => None
  }

  /** `x[k0][k1]...` with string keys, as in `game['liveData']['boxscore']`. */
  function Path(x: Json, ks: seq<string>): Option<Json>
    decreases |ks|
  {
    if ks == [] then Some(x)
    else
      var y :- Subscript(x, JStr(ks[0]));
      Path(y, ks[1..])
  }

  /** What `for e in x` visits: the keys of a dict, the items of a list,
      the characters of a string; other values raise TypeError. */
  function Iterate(x: Json): Option<seq<Json>> {
    match x
    case JObj(fs) => Some(seq(|fs|, i requires 0 <= i < |fs| => JStr(fs[i].0)))
    case JList(xs) => Some(xs)
    case JStr(s) => Some(seq(|s|, i requires 0 <= i < |s| => JStr([s[i]])))
    case _ => None
  }

  /** Python's `len(x)`. */
  function Len(x: Json): Option<nat> {
    match x
    case JObj(fs) => Some(|fs|)
    case JList(xs) => Some(|xs|)
    case JStr(s) => Some(|s|)
    case _ => None
  }

  /** Python's integer view of a number: an int, or a bool (False is 0). */
  function AsNumber(x: Json): Option<int> {
    match x
    case JInt(i) => Some(i)
    case JBool(b) => Some(if b then 1 else 0)
    case _ => None
  }

  /** `a < b` on strings: code-point lexicographic order. */
  predicate StrLess(a: string, b: string)
    decreases |a|
  {
    if a == [] then b != []
    else if b == [] then false
    else if a[0] != b[0] then a[0] < b[0]
    else StrLess(a[1..], b[1..])
  }

  /** Python's `a > b`: numbers compare numerically, strings
      lexicographically; other pairs raise TypeError. */
  function Greater(a: Json, b: Json): (r: Option<bool>)
    ensures AsNumber(a).Some? && AsNumber(b).Some? ==>
              r == Some(AsNumber(a).value > AsNumber(b).value)
    ensures a.JStr? && b.JStr? ==> r == Some(StrLess(b.s, a.s))
    ensures r.Some? ==> (AsNumber(a).Some? && AsNumber(b).Some?) || (a.JStr? && b.JStr?)
  {
    if AsNumber(a).Some? && AsNumber(b).Some? then Some(AsNumber(a).value > AsNumber(b).value)
    else if a.JStr? && b.JStr? then Some(StrLess(b.s, a.s))
    else None
  }

  /** Strict string order is irreflexive and asymmetric. */
  lemma {:induction false} StrLessAsymmetric(a: string, b: string)
    ensures StrLess(a, b) ==> !StrLess(b, a)
    ensures !StrLess(a, a)
    decreases |a|
  {
    if a != [] && b != [] && a[0] == b[0] {
      StrLessAsymmetric(a[1..], b[1..]);
    }
    if a != [] {
      StrLessAsymmetric(a[1..], a[1..]);
    }
  }

  /** `a > b` is a strict order wherever it is defined: it raises for `b > a`
      exactly when it raises for `a > b`, it never holds both ways, and a
      value is never greater than itself. */
  lemma GreaterAsymmetric(a: Json, b: Json)
    ensures Greater(a, b).Some? <==> Greater(b, a).Some?
    ensures Greater(a, b) == Some(true) ==> Greater(b, a) == Some(false)
    ensures Greater(a, a) != Some(true)
  {
    if a.JStr? && b.JStr? {
      StrLessAsymmetric(b.s, a.s);
    }
    if a.JStr? {
      StrLessAsymmetric(a.s, a.s);
    }
  }
}
