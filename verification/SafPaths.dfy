/**
  Relative paths of a SAF tree. The backend decides by string prefixes which cached entries
  lie below a path; here that is tied to the segments between slashes.
  */
module SafPaths {

  /** `forget_cached_path` drops `q` when it forgets `p`. */
  predicate Under(p: string, q: string) {
    p == "" || q == p || p + "/" <= q
  }

  /** Position of the first slash, or the length of the path. */
  function FirstSlash(s: string): (k: nat)
    ensures k <= |s|
    ensures k < |s| ==> s[k] == '/'
    ensures forall i :: 0 <= i < k ==> s[i] != '/'
  {
    if s == "" || s[0] == '/' then 0 else 1 + FirstSlash(s[1..])
  }

  function Split(s: string): (segments: seq<string>)
    ensures segments != []
  {
    var k := FirstSlash(s);
    if k == |s| then [s] else [s[..k]] + Split(s[k + 1..])
  }

  function Join(segments: seq<string>): string
    requires segments != []
  {
    if |segments| == 1 then segments[0] else segments[0] + "/" + Join(segments[1..])
  }

  lemma JoinStep(head: string, rest: seq<string>)
    requires rest != []
    ensures Join([head] + rest) == head + "/" + Join(rest)
  {
    assert ([head] + rest)[1..] == rest;
  }

  lemma {:induction false} JoinSplit(s: string)
    ensures Join(Split(s)) == s
  {
    hide FirstSlash;
    var k := FirstSlash(s);
    if k < |s| {
      JoinSplit(s[k + 1..]);
      SplitStep(s);
      JoinStep(s[..k], Split(s[k + 1..]));
      assert s == s[..k] + "/" + s[k + 1..];
    }
  }

  lemma FirstSlashIs(s: string, k: nat)
    requires k < |s| && s[k] == '/' && forall i :: 0 <= i < k ==> s[i] != '/'
    ensures FirstSlash(s) == k
  {
  }

  lemma FirstSlashOfTail(p: string, tail: string)
    requires tail != "" && tail[0] == '/'
    ensures FirstSlash(p + tail) == FirstSlash(p) < |p + tail|
  {
    var k := FirstSlash(p);
    assert forall i :: 0 <= i < k ==> (p + tail)[i] == p[i];
    FirstSlashIs(p + tail, k);
  }

  lemma {:induction false} SplitStep(s: string)
    requires FirstSlash(s) < |s|
    ensures var k := FirstSlash(s); Split(s) == [s[..k]] + Split(s[k + 1..])
  {
    hide FirstSlash;
  }

  lemma SliceBefore(p: string, tail: string, k: nat)
    requires k <= |p|
    ensures (p + tail)[..k] == p[..k]
    ensures (p + tail)[k..] == p[k..] + tail
  {
  }

  lemma {:induction false} SplitAtSlash(p: string, r: string)
    ensures Split(p + "/" + r) == Split(p) + Split(r)
  {
    var tail := "/" + r;
    assert p + "/" + r == p + tail;
    SplitTail(p, tail);
    assert tail[1..] == r;
  }

  lemma {:induction false} SplitTail(p: string, tail: string)
    requires tail != "" && tail[0] == '/'
    ensures Split(p + tail) == Split(p) + Split(tail[1..])
  {
    var k := FirstSlash(p);
    FirstSlashOfTail(p, tail);
    SplitStep(p + tail);
    SliceBefore(p, tail, k);
    if k == |p| {
      assert p[..k] == p && (p + tail)[k + 1..] == tail[1..];
    } else {
      SplitTail(p[k + 1..], tail);
      SplitStep(p);
      SliceBefore(p, tail, k + 1);
      Regroup(p[..k], Split(p[k + 1..]), Split(tail[1..]));
    }
  }

  lemma Regroup(head: string, a: seq<string>, b: seq<string>)
    ensures [head] + (a + b) == [head] + a + b
  {
  }

  lemma {:induction false} JoinAppend(a: seq<string>, b: seq<string>)
    requires a != [] && b != []
    ensures Join(a + b) == Join(a) + "/" + Join(b)
  {
    if |a| == 1 {
      assert (a + b)[1..] == b;
    } else {
      assert (a + b)[1..] == a[1..] + b;
      JoinAppend(a[1..], b);
      assert a[0] + "/" + (Join(a[1..]) + "/" + Join(b)) == (a[0] + "/" + Join(a[1..])) + "/" + Join(b);
    }
  }

  /** The prefix test selects exactly the subtree of a path: the paths its segments begin. */
  lemma UnderIsSubtree(p: string, q: string)
    requires p != ""
    ensures Under(p, q) <==> Split(p) <= Split(q)
  {
    if Under(p, q) && q != p {
      var r := q[|p| + 1..];
      assert q == p + "/" + r;
      SplitAtSlash(p, r);
    }
    if Split(p) <= Split(q) {
      PrefixIsUnder(p, q);
    }
  }

  lemma PrefixIsUnder(p: string, q: string)
    requires Split(p) <= Split(q)
    ensures Under(p, q)
  {
    JoinSplit(p);
    JoinSplit(q);
    hide Split;
    var rest := Split(q)[|Split(p)|..];
    assert Split(q) == Split(p) + rest;
    if rest != [] {
      JoinAppend(Split(p), rest);
      assert q == p + "/" + Join(rest);
    } else {
      assert Split(p) + rest == Split(p);
    }
  }
}
