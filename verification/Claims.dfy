/**
 * A JSON object as the token payload is built: claim names mapped to string or
 * integer values, kept in insertion order, because that is the order in which
 * `JSON.stringify` and the signer write the keys.
 */
module Claims {
  import opened Wrappers

  datatype Value = Str(s: string) | Int(n: int)

  type Payload = seq<(string, Value)>

  function Keys(p: Payload): (ks: seq<string>)
    ensures |ks| == |p| && forall i :: 0 <= i < |p| ==> ks[i] == p[i].0
  {
    seq(|p|, i requires 0 <= i < |p| => p[i].0)
  }

  /** Position of the first entry named `k`, or `|p|` when there is none. */
  function IndexOf(p: Payload, k: string): (i: nat)
    ensures i <= |p| && (i < |p| ==> p[i].0 == k)
    ensures forall j :: 0 <= j < i ==> p[j].0 != k
  {
    if p == [] then 0
    else if p[0].0 == k then 0
    else 1 + IndexOf(p[1..], k)
  }

  /** The first-match property determines the position. */
  lemma IndexOfIs(p: Payload, k: string, i: nat)
    requires i <= |p| && (i < |p| ==> p[i].0 == k)
    requires forall j :: 0 <= j < i ==> p[j].0 != k
    ensures IndexOf(p, k) == i
  {
  }

  predicate HasKey(p: Payload, k: string)
  {
    IndexOf(p, k) < |p|
  }

  lemma HasKeyIffNamed(p: Payload, k: string)
    ensures HasKey(p, k) <==> k in Keys(p)
  {
    if k in Keys(p) {
      var j :| 0 <= j < |p| && Keys(p)[j] == k;
      assert p[j].0 == k;
    }
  }

  /** Property read `p[k]`. */
  function Lookup(p: Payload, k: string): (r: Option<Value>)
  {
    var i := IndexOf(p, k);
    if i < |p| then Some(p[i].1) else None
  }

  /** No claim name occurs twice, as in any JavaScript object. */
  predicate UniqueKeys(p: Payload)
  {
    forall i, j :: 0 <= i < j < |p| ==> p[i].0 != p[j].0
  }

  /** A read from a concatenation looks in the first part before the second. */
  lemma LookupAppend(p: Payload, q: Payload, k: string)
    ensures Lookup(p + q, k) == if HasKey(p, k) then Lookup(p, k) else Lookup(q, k)
  {
    if HasKey(p, k) {
      IndexOfIs(p + q, k, IndexOf(p, k));
    } else {
      IndexOfIs(p + q, k, |p| + IndexOf(q, k));
    }
  }

  /** In a payload without repeated names, each entry is what a read of its name finds. */
  lemma LookupUnique(p: Payload, i: nat)
    requires UniqueKeys(p) && i < |p|
    ensures Lookup(p, p[i].0) == Some(p[i].1)
  {
    IndexOfIs(p, p[i].0, i);
  }

  /**
   * Property assignment `p[k] = v`: an existing entry is overwritten where it
   * stands, a new one goes at the end.
   */
  function Put(p: Payload, k: string, v: Value): (q: Payload)
    ensures Keys(q) == if HasKey(p, k) then Keys(p) else Keys(p) + [k]
  {
    var i := IndexOf(p, k);
    if i < |p| then p[i := (k, v)] else p + [(k, v)]
  }

  /** After `p[k] = v`, reading `k` gives `v` and every other name reads as before. */
  lemma PutLookup(p: Payload, k: string, v: Value, k': string)
    ensures Lookup(Put(p, k, v), k') == if k' == k then Some(v) else Lookup(p, k')
  {
    var q := Put(p, k, v);
    var i := IndexOf(p, k);
    if k' == k {
      IndexOfIs(q, k, i);
    } else {
      var j := IndexOf(p, k');
      if j < |p| {
        IndexOfIs(q, k', j);
      } else {
        IndexOfIs(q, k', |q|);
      }
    }
  }

  /** Assignment never introduces a repeated name. */
  lemma PutKeepsKeysUnique(p: Payload, k: string, v: Value)
    requires UniqueKeys(p)
    ensures UniqueKeys(Put(p, k, v))
  {
    var q := Put(p, k, v);
    assert Keys(q) == if HasKey(p, k) then Keys(p) else Keys(p) + [k];
    forall a, b | 0 <= a < b < |q| ensures q[a].0 != q[b].0 {
      assert Keys(q)[a] == q[a].0 && Keys(q)[b] == q[b].0;
    }
  }

  /** Every name in `p` is one of `names`. */
  ghost predicate NamedFrom(p: Payload, names: set<string>)
  {
    forall j :: 0 <= j < |p| ==> p[j].0 in names
  }

  lemma NamedFromAppend(p: Payload, q: Payload, names: set<string>)
    requires NamedFrom(p, names) && NamedFrom(q, names)
    ensures NamedFrom(p + q, names)
  {
    forall j | 0 <= j < |p + q| ensures (p + q)[j].0 in names {
      if j >= |p| {
        assert (p + q)[j] == q[j - |p|];
      }
    }
  }

  lemma NamedFromWiden(p: Payload, names: set<string>, more: set<string>)
    requires NamedFrom(p, names) && names <= more
    ensures NamedFrom(p, more)
  {
  }

  /** A name outside `names` is not found in a payload named from `names`. */
  lemma AbsentName(p: Payload, names: set<string>, k: string)
    requires NamedFrom(p, names) && k !in names
    ensures !HasKey(p, k) && Lookup(p, k) == None
  {
  }

  /** A name `p` cannot hold is looked up in what follows it. */
  lemma LookupSkip(p: Payload, q: Payload, names: set<string>, k: string)
    requires NamedFrom(p, names) && k !in names
    ensures Lookup(p + q, k) == Lookup(q, k)
  {
    LookupAppend(p, q, k);
  }

  /** A name `q` cannot hold is looked up in what precedes it. */
  lemma LookupBefore(p: Payload, q: Payload, names: set<string>, k: string)
    requires NamedFrom(q, names) && k !in names
    ensures Lookup(p + q, k) == Lookup(p, k)
  {
    LookupAppend(p, q, k);
  }

  /** Assigning a name that is not a key appends it. */
  lemma PutAbsent(p: Payload, k: string, v: Value)
    requires !HasKey(p, k)
    ensures Put(p, k, v) == p + [(k, v)]
  {
  }

  /** A one-entry payload reads its own name and nothing else. */
  lemma LookupSingle(name: string, v: Value, k: string)
    ensures Lookup([(name, v)], k) == if k == name then Some(v) else None
  {
  }

  /** Assigning a name not yet used appends it and keeps the names distinct. */
  lemma PutFresh(p: Payload, names: set<string>, k: string, v: Value)
    requires UniqueKeys(p) && NamedFrom(p, names) && k !in names
    ensures Put(p, k, v) == p + [(k, v)]
    ensures UniqueKeys(Put(p, k, v)) && NamedFrom(Put(p, k, v), names + {k})
  {
    HasKeyIffNamed(p, k);
  }

  /** A name is a key of a concatenation exactly when it is a key of either part. */
  lemma HasKeyAppend(p: Payload, q: Payload, k: string)
    ensures HasKey(p + q, k) <==> HasKey(p, k) || HasKey(q, k)
  {
    HasKeyIffNamed(p, k);
    HasKeyIffNamed(q, k);
    HasKeyIffNamed(p + q, k);
    assert Keys(p + q) == Keys(p) + Keys(q);
  }

  /** Two payloads without repeated keys, named from disjoint sets, concatenate without repeated keys. */
  lemma UniqueAppend(p: Payload, q: Payload, names: set<string>, others: set<string>)
    requires UniqueKeys(p) && UniqueKeys(q) && NamedFrom(p, names) && NamedFrom(q, others) && names !! others
    ensures UniqueKeys(p + q)
  {
    forall i, j | 0 <= i < j < |p + q| ensures (p + q)[i].0 != (p + q)[j].0 {
      if i < |p| && j >= |p| {
        assert (p + q)[j] == q[j - |p|];
        assert p[i].0 in names && q[j - |p|].0 in others;
      }
    }
  }
}
