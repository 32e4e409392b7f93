/**
 * `utils.api_sign_request` of src/lib/cloudinary.js: the upload parameters'
 * keys are sorted, each is written `key=value`, the pieces are joined with
 * `&`, the API secret is appended with no separator and the result is
 * hashed with SHA-1. The hash is a parameter here (an uninterpreted
 * function from the string to its hex digest).
 *
 * A parameter object is a sequence of entries with distinct keys, in
 * insertion order; values are already the strings the template literal
 * would produce.
 */
module Cloudinary {
  import opened Wrappers
  import opened JsText

  type Entry = (string, string)

  /** The keys of an object are distinct. */
  predicate DistinctKeys(ps: seq<Entry>) {
    forall i, j :: 0 <= i < j < |ps| ==> ps[i].0 != ps[j].0
  }

  /** `Object.keys(params)`. */
  function Keys(ps: seq<Entry>): (ks: seq<string>)
    ensures |ks| == |ps|
    ensures forall i :: 0 <= i < |ps| ==> ks[i] == ps[i].0
  {
    if ps == [] then [] else [ps[0].0] + Keys(ps[1..])
  }

  /** `params[k]`: the value stored under `k` (`""` for a key that is absent,
      which the signing code never asks for). */
  function ValueOf(ps: seq<Entry>, k: string): string {
    if ps == [] then ""
    else if ps[0].0 == k then ps[0].1
    else ValueOf(ps[1..], k)
  }

  /** In an object, the value under a key is the one its entry holds. */
  lemma {:induction false} ValueOfEntry(ps: seq<Entry>, k: string, v: string)
    requires DistinctKeys(ps) && (k, v) in ps
    ensures ValueOf(ps, k) == v
    decreases |ps|
  {
    if ps[0] != (k, v) {
      var j :| 0 <= j < |ps| && ps[j] == (k, v);
      assert j > 0;
      assert ps[0].0 != ps[j].0;
      assert ps[1..][j - 1] == (k, v);
      ValueOfEntry(ps[1..], k, v);
    }
  }

  // ---------------------------------------------------------------------------
  // The default string order
  // ---------------------------------------------------------------------------

  /** `a < b` in the order `Array.prototype.sort` uses for strings:
      lexicographic by character, a proper prefix first. */
  predicate StrLess(a: string, b: string)
    decreases |a|
  {
    if |a| == 0 then |b| > 0
    else if |b| == 0 then false
    else a[0] < b[0] || (a[0] == b[0] && StrLess(a[1..], b[1..]))
  }

  lemma {:induction false} StrLessIrreflexive(a: string)
    ensures !StrLess(a, a)
    decreases |a|
  {
    if |a| > 0 {
      StrLessIrreflexive(a[1..]);
    }
  }

  lemma {:induction false} StrLessTransitive(a: string, b: string, c: string)
    requires StrLess(a, b) && StrLess(b, c)
    ensures StrLess(a, c)
    decreases |a|
  {
    if |a| > 0 && a[0] == b[0] && b[0] == c[0] {
      StrLessTransitive(a[1..], b[1..], c[1..]);
    }
  }

  lemma {:induction false} StrLessTotal(a: string, b: string)
    requires a != b
    ensures StrLess(a, b) || StrLess(b, a)
    decreases |a|
  {
    if |a| > 0 && |b| > 0 && a[0] == b[0] {
      assert a == [a[0]] + a[1..] && b == [b[0]] + b[1..];
      StrLessTotal(a[1..], b[1..]);
    }
  }

  // ---------------------------------------------------------------------------
  // Sorting the keys
  // ---------------------------------------------------------------------------

  /** Each key comes before the next. */
  predicate StrictlySorted(ks: seq<string>) {
    forall i, j :: 0 <= i < j < |ks| ==> StrLess(ks[i], ks[j])
  }

  /** `k` inserted into sorted `ks` before the first key not below it. */
  function Insert(k: string, ks: seq<string>): (r: seq<string>)
    ensures |r| == |ks| + 1
    ensures forall x :: x in r <==> x == k || x in ks
  {
    if ks == [] || !StrLess(ks[0], k) then [k] + ks
    else [ks[0]] + Insert(k, ks[1..])
  }

  /** Inserting a key that is not there keeps the keys strictly sorted. */
  lemma {:induction false} InsertSorted(k: string, ks: seq<string>)
    requires StrictlySorted(ks) && k !in ks
    ensures StrictlySorted(Insert(k, ks))
    decreases |ks|
  {
    var r := Insert(k, ks);
    if ks == [] {
    } else if !StrLess(ks[0], k) {
      StrLessTotal(k, ks[0]);
      forall j | 1 <= j < |r|
        ensures StrLess(r[0], r[j])
      {
        if j > 1 {
          StrLessTransitive(k, ks[0], ks[j - 1]);
        }
      }
    } else {
      InsertSorted(k, ks[1..]);
      forall j | 1 <= j < |r|
        ensures StrLess(r[0], r[j])
      {
        assert r[j] in Insert(k, ks[1..]);
        if r[j] != k {
          var m :| 0 <= m < |ks[1..]| && ks[1..][m] == r[j];
          assert ks[m + 1] == r[j];
        }
      }
    }
  }

  /** `keys.sort()`. */
  function Sort(ks: seq<string>): (r: seq<string>)
    ensures |r| == |ks|
    ensures forall x :: x in r <==> x in ks
  {
    if ks == [] then [] else Insert(ks[0], Sort(ks[1..]))
  }

  /** Distinct keys sort into strictly increasing order. */
  lemma {:induction false} SortSorted(ks: seq<string>)
    requires forall i, j :: 0 <= i < j < |ks| ==> ks[i] != ks[j]
    ensures StrictlySorted(Sort(ks))
    decreases |ks|
  {
    if ks != [] {
      SortSorted(ks[1..]);
      assert ks[0] !in ks[1..];
      InsertSorted(ks[0], Sort(ks[1..]));
    }
  }

  /** Two strictly sorted sequences with the same members are equal. */
  lemma {:induction false} SortedUnique(a: seq<string>, b: seq<string>)
    requires StrictlySorted(a) && StrictlySorted(b)
    requires forall x :: x in a <==> x in b
    ensures a == b
    decreases |a|
  {
    if a != [] {
      assert a[0] in a;
    }
    if b != [] {
      assert b[0] in b;
    }
    if a != [] && b != [] {
      if a[0] != b[0] {
        assert b[0] in b && a[0] in a;
        var i :| 0 <= i < |a| && a[i] == b[0];
        var j :| 0 <= j < |b| && b[j] == a[0];
        assert StrLess(a[0], b[0]);
        assert StrLess(b[0], a[0]);
        StrLessTransitive(a[0], b[0], a[0]);
        StrLessIrreflexive(a[0]);
        assert false;
      }
      forall x
        ensures x in a[1..] <==> x in b[1..]
      {
        if x in a[1..] {
          var i :| 0 <= i < |a[1..]| && a[1..][i] == x;
          assert x in b;
          var j :| 0 <= j < |b| && b[j] == x;
          StrLessIrreflexive(x);
          assert j != 0;
          assert b[1..][j - 1] == x;
        }
        if x in b[1..] {
          var j :| 0 <= j < |b[1..]| && b[1..][j] == x;
          assert x in a;
          var i :| 0 <= i < |a| && a[i] == x;
          StrLessIrreflexive(x);
          assert i != 0;
          assert a[1..][i - 1] == x;
        }
      }
      SortedUnique(a[1..], b[1..]);
    }
  }

  // ---------------------------------------------------------------------------
  // The canonical string and the signature
  // ---------------------------------------------------------------------------

  /** `keys.map((k) => `${k}=${params[k]}`)`. */
  function Pieces(ks: seq<string>, ps: seq<Entry>): (r: seq<string>)
    ensures |r| == |ks|
    ensures forall i :: 0 <= i < |ks| ==> r[i] == ks[i] + "=" + ValueOf(ps, ks[i])
  {
    if ks == [] then [] else [ks[0] + "=" + ValueOf(ps, ks[0])] + Pieces(ks[1..], ps)
  }

  /** The string that is hashed before the secret is appended. */
  function Canonical(ps: seq<Entry>): string {
    Join(Pieces(Sort(Keys(ps)), ps), "&")
  }

  /** `api_sign_request(params, apiSecret)` with `sha1` the hex digest. */
  function Signature(ps: seq<Entry>, apiSecret: string, sha1: string -> string): string {
    sha1(Canonical(ps) + apiSecret)
  }

  /** Both arguments default: `params = {}`, `apiSecret = ''`. */
  function ApiSignRequest(params: Option<seq<Entry>>, apiSecret: Option<string>, sha1: string -> string): (sig: string)
    ensures params.None? && apiSecret.None? ==> sig == sha1("")
    ensures params.None? && apiSecret.Some? ==> sig == sha1(apiSecret.value)
    ensures params.Some? ==> sig == Signature(params.value, apiSecret.GetOr(""), sha1)
  {
    EmptyParamsSignSecret(apiSecret.GetOr(""), sha1);
    Signature(params.GetOr([]), apiSecret.GetOr(""), sha1)
  }

  /** The canonical string lists every entry once, as `key=value`, in
      strictly increasing key order. */
  lemma CanonicalListsEveryEntry(ps: seq<Entry>)
    requires DistinctKeys(ps)
    ensures var ks := Sort(Keys(ps));
      && Canonical(ps) == Join(Pieces(ks, ps), "&")
      && StrictlySorted(ks) && |ks| == |ps|
      && forall e :: e in ps ==> exists i :: 0 <= i < |ks| && Pieces(ks, ps)[i] == e.0 + "=" + e.1
  {
    var ks := Sort(Keys(ps));
    SortSorted(Keys(ps));
    forall e | e in ps
      ensures exists i :: 0 <= i < |ks| && Pieces(ks, ps)[i] == e.0 + "=" + e.1
    {
      var j :| 0 <= j < |ps| && ps[j] == e;
      assert e.0 in Keys(ps);
      var i :| 0 <= i < |ks| && ks[i] == e.0;
      ValueOfEntry(ps, e.0, e.1);
      assert Pieces(ks, ps)[i] == e.0 + "=" + e.1;
    }
  }

  /** Two objects with the same entries, whatever their insertion order,
      get the same signature. */
  lemma SignatureOrderIndependent(ps: seq<Entry>, qs: seq<Entry>, apiSecret: string, sha1: string -> string)
    requires DistinctKeys(ps) && DistinctKeys(qs)
    requires forall e :: e in ps <==> e in qs
    ensures Signature(ps, apiSecret, sha1) == Signature(qs, apiSecret, sha1)
  {
    forall k
      ensures k in Keys(ps) <==> k in Keys(qs)
    {
      if k in Keys(ps) {
        var i :| 0 <= i < |ps| && Keys(ps)[i] == k;
        assert ps[i] in qs;
        var j :| 0 <= j < |qs| && qs[j] == ps[i];
        assert Keys(qs)[j] == k;
      }
      if k in Keys(qs) {
        var j :| 0 <= j < |qs| && Keys(qs)[j] == k;
        assert qs[j] in ps;
        var i :| 0 <= i < |ps| && ps[i] == qs[j];
        assert Keys(ps)[i] == k;
      }
    }
    SortSorted(Keys(ps));
    SortSorted(Keys(qs));
    SortedUnique(Sort(Keys(ps)), Sort(Keys(qs)));
    var ks := Sort(Keys(ps));
    forall i | 0 <= i < |ks|
      ensures ValueOf(ps, ks[i]) == ValueOf(qs, ks[i])
    {
      assert ks[i] in Keys(ps);
      var m :| 0 <= m < |ps| && Keys(ps)[m] == ks[i];
      ValueOfEntry(ps, ps[m].0, ps[m].1);
      ValueOfEntry(qs, ps[m].0, ps[m].1);
    }
    assert Pieces(ks, ps) == Pieces(ks, qs);
  }

  /** No parameters: the canonical string is empty and the signature is the
      hash of the secret alone. */
  lemma EmptyParamsSignSecret(apiSecret: string, sha1: string -> string)
    ensures Canonical([]) == ""
    ensures Signature([], apiSecret, sha1) == sha1(apiSecret)
  {
    assert Pieces(Sort(Keys([])), []) == [];
    assert [] + apiSecret == apiSecret;
  }
}
