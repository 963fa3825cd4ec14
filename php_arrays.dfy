/** PHP values and string-keyed PHP arrays, with the handful of built-ins the
    request classes use: isset, ??, empty(), array_merge, array_intersect_key
    and array_diff_key over array_flip. */
module PhpArrays {

  /** The PHP values a request field can hold. Floats are not modelled;
      Object stands for an object such as an uploaded file. */
  datatype Value =
    | Null
    | Bool(b: bool)
    | Int(i: int)
    | Str(s: string)
    | Arr(entries: map<string, Value>)
    | Object(handle: nat)

  /** A PHP array whose keys are (non-numeric) strings. */
  type PhpArray = map<string, Value>

  /** PHP's empty() on the values modelled here: null, false, 0, "", "0" and
      the empty array are empty; every object is not. */
  predicate IsEmpty(v: Value) {
    match v
    case Null => true
    case Bool(b) => !b
    case Int(i) => i == 0
    case Str(s) => s == "" || s == "0"
    case Arr(m) => |m| == 0
    case Object(_) => false
  }

  /** isset($a[$k]): the key is present and its value is not null. */
  predicate IsSet(a: PhpArray, k: string) {
    k in a && a[k] != Null
  }

  /** $a[$k] ?? $default */
  function Coalesce(a: PhpArray, k: string, default: Value): Value {
    if IsSet(a, k) then a[k] else default
  }

  /** The keys of array_flip($keys). */
  function KeySet(keys: seq<string>): set<string> {
    set k | k in keys
  }

  /** array_merge($a, $b) on string keys: every key of either array, and on
      a shared key the value of the later array. */
  function Merge(a: PhpArray, b: PhpArray): (r: PhpArray)
    ensures r.Keys == a.Keys + b.Keys
    ensures forall k :: k in b ==> r[k] == b[k]
    ensures forall k :: k in a && k !in b ==> r[k] == a[k]
  {
    a + b
  }

  /** The keys held by at least one of the arrays. */
  function KeysOf(ms: seq<PhpArray>): set<string> {
    set i, k | 0 <= i < |ms| && k in ms[i] :: k
  }

  /** array_merge($ms[0], ..., $ms[n-1]): each argument merged over the
      merge of the ones before it. */
  function MergeAll(ms: seq<PhpArray>): PhpArray {
    if |ms| == 0 then map[] else Merge(MergeAll(ms[..|ms| - 1]), ms[|ms| - 1])
  }

  /** A key is in an array_merge exactly when some argument holds it. */
  lemma {:induction false} MergeAllKeys(ms: seq<PhpArray>)
    ensures MergeAll(ms).Keys == KeysOf(ms)
  {
    if |ms| > 0 {
      var front := ms[..|ms| - 1];
      MergeAllKeys(front);
      assert forall i :: 0 <= i < |front| ==> front[i] == ms[i];
      assert KeysOf(ms) == KeysOf(front) + ms[|ms| - 1].Keys;
    }
  }

  /** The keys held by one of three arrays. */
  lemma KeysOfThree(s: seq<PhpArray>)
    requires |s| == 3
    ensures KeysOf(s) == s[0].Keys + s[1].Keys + s[2].Keys
  {
  }

  /** In array_merge the value of a key comes from the last argument that
      holds it. */
  lemma {:induction false} MergeAllLastWins(ms: seq<PhpArray>, i: nat, k: string)
    requires i < |ms| && k in ms[i]
    requires forall j :: i < j < |ms| ==> k !in ms[j]
    ensures k in MergeAll(ms) && MergeAll(ms)[k] == ms[i][k]
  {
    var n := |ms|;
    var front, last := ms[..n - 1], ms[n - 1];
    var rest := MergeAll(front);
    assert MergeAll(ms) == rest + last;
    if i < n - 1 {
      assert front[i] == ms[i];
      MergeAllLastWins(front, i, k);
      assert k !in last;
    }
  }

  /** In array_merge of three arrays, or of four whose last one lacks the
      key, the value of a key comes from the latest of the first three that
      holds it. */
  lemma LatestSourceWins(s: seq<PhpArray>, k: string)
    requires 3 <= |s| <= 4
    requires |s| == 4 ==> k !in s[3]
    ensures k in s[2] ==> k in MergeAll(s) && MergeAll(s)[k] == s[2][k]
    ensures k in s[1] && k !in s[2] ==> k in MergeAll(s) && MergeAll(s)[k] == s[1][k]
    ensures k in s[0] && k !in s[1] && k !in s[2] ==> k in MergeAll(s) && MergeAll(s)[k] == s[0][k]
  {
    var i := if k in s[2] then 2 else if k in s[1] then 1 else 0;
    if k in s[i] {
      MergeAllLastWins(s, i, k);
    }
  }

  /** array_merge($a, $b, $c) for every key at once: $c beats $b, which
      beats $a. */
  lemma MergeThreePrecedence(s: seq<PhpArray>)
    requires |s| == 3
    ensures forall k :: k in s[2] ==> k in MergeAll(s) && MergeAll(s)[k] == s[2][k]
    ensures forall k :: k in s[1] && k !in s[2] ==> k in MergeAll(s) && MergeAll(s)[k] == s[1][k]
    ensures forall k :: k in s[0] && k !in s[1] && k !in s[2] ==> k in MergeAll(s) && MergeAll(s)[k] == s[0][k]
  {
    forall k | k in s[0] || k in s[1] || k in s[2] {
      LatestSourceWins(s, k);
    }
  }

  /** array_intersect_key($a, array_flip($keys)) */
  function IntersectKeys(a: PhpArray, keys: seq<string>): (r: PhpArray)
    ensures r.Keys == a.Keys * KeySet(keys)
    ensures forall k :: k in r ==> r[k] == a[k]
  {
    map k | k in a && k in keys :: a[k]
  }

  /** array_diff_key($a, array_flip($keys)) */
  function DiffKeys(a: PhpArray, keys: seq<string>): (r: PhpArray)
    ensures r.Keys == a.Keys - KeySet(keys)
    ensures forall k :: k in r ==> r[k] == a[k]
  {
    map k | k in a && k !in keys :: a[k]
  }

  /** The intersection and the difference by the same keys split an array in
      two: they share no key and together give back the array. */
  lemma OnlyExceptPartition(a: PhpArray, keys: seq<string>)
    ensures IntersectKeys(a, keys).Keys !! DiffKeys(a, keys).Keys
    ensures Merge(IntersectKeys(a, keys), DiffKeys(a, keys)) == a
  {
  }
}
