/** The per-part ball collections: the end-of-frame cull that drops balls which
    left the visible rectangle, and the no-sharing discipline that keeps every
    ball in exactly one collection. */
module Tracks {
  import opened Beat
  import opened Geometry

  /** The cull: the order-preserving filter that keeps the elements whose
      body is inside [0, width) x [0, height). `body` reads the position off
      an element. */
  function CullBy<T>(s: seq<T>, body: T -> Body, width: int, height: int): seq<T>
    decreases |s|
  {
    if s == [] then []
    else (if OnScreen(body(s[0]), width, height) then [s[0]] else []) + CullBy(s[1..], body, width, height)
  }

  /** The cull keeps exactly the elements on screen, each no more often than
      it occurred. */
  lemma {:induction false} CullByMembers<T>(s: seq<T>, body: T -> Body, width: int, height: int)
    ensures var r := CullBy(s, body, width, height);
            && (forall t :: t in r ==> t in s && OnScreen(body(t), width, height))
            && (forall t :: t in s && OnScreen(body(t), width, height) ==> t in r)
            && multiset(r) <= multiset(s)
    decreases |s|
  {
    if s != [] {
      CullByMembers(s[1..], body, width, height);
      assert s == [s[0]] + s[1..];
    }
  }

  /** Culling a concatenation culls each part in place: the survivors keep
      their relative order. */
  lemma {:induction false} CullAppend<T>(a: seq<T>, b: seq<T>, body: T -> Body, width: int, height: int)
    ensures CullBy(a + b, body, width, height) == CullBy(a, body, width, height) + CullBy(b, body, width, height)
    decreases |a|
  {
    if a != [] {
      assert (a + b)[0] == a[0];
      assert (a + b)[1..] == a[1..] + b;
      CullAppend(a[1..], b, body, width, height);
    } else {
      assert a + b == b;
    }
  }

  /** Every element of a culled collection is on screen, so culling it again
      changes nothing. */
  lemma {:induction false} CullIdempotent<T>(s: seq<T>, body: T -> Body, width: int, height: int)
    ensures CullBy(CullBy(s, body, width, height), body, width, height) == CullBy(s, body, width, height)
    decreases |s|
  {
    if s != [] {
      var head := if OnScreen(body(s[0]), width, height) then [s[0]] else [];
      var rest := CullBy(s[1..], body, width, height);
      CullAppend(head, rest, body, width, height);
      CullIdempotent(s[1..], body, width, height);
      if head != [] {
        assert CullBy(head, body, width, height) == head by {
          assert head[1..] == [];
        }
      }
    }
  }

  /** A collection that is wholly on screen survives the cull unchanged. */
  lemma {:induction false} CullKeepsOnScreen<T>(s: seq<T>, body: T -> Body, width: int, height: int)
    requires forall i :: 0 <= i < |s| ==> OnScreen(body(s[i]), width, height)
    ensures CullBy(s, body, width, height) == s
    decreases |s|
  {
    if s != [] {
      CullKeepsOnScreen(s[1..], body, width, height);
    }
  }

  /** No element occurs twice: a ball belongs to one collection, once. */
  ghost predicate Unique<T>(s: seq<T>)
  {
    forall x :: x in s ==> multiset(s)[x] == 1
  }

  /** Index form of Unique, for loops that touch one ball per step. */
  predicate Distinct<T(==)>(s: seq<T>)
  {
    forall i, j :: 0 <= i < j < |s| ==> s[i] != s[j]
  }

  lemma UniqueIsDistinct<T>(s: seq<T>)
    requires Unique(s)
    ensures Distinct(s)
  {
    forall i, j | 0 <= i < j < |s|
      ensures s[i] != s[j]
    {
      assert s == s[..j] + s[j..];
      assert multiset(s)[s[i]] == multiset(s[..j])[s[i]] + multiset(s[j..])[s[i]];
      assert s[i] in multiset(s[..j]) && s[j] in multiset(s[j..]);
    }
  }

  /** A sub-collection of a collection without repeats has none either. */
  lemma UniqueSub<T>(s: seq<T>, t: seq<T>)
    requires Unique(s) && multiset(t) <= multiset(s)
    ensures Unique(t)
  {
    forall x | x in t
      ensures multiset(t)[x] == 1
    {
      assert multiset(t)[x] <= multiset(s)[x];
    }
  }

  /** The converse of UniqueIsDistinct. */
  lemma {:induction false} DistinctIsUnique<T>(s: seq<T>)
    requires Distinct(s)
    ensures Unique(s)
    decreases |s|
  {
    if s != [] {
      var rest := s[1..];
      assert s == [s[0]] + rest;
      assert Distinct(rest);
      assert s[0] !in rest;
      DistinctIsUnique(rest);
      forall x | x in s
        ensures multiset(s)[x] == 1
      {
        assert multiset(s)[x] == multiset([s[0]])[x] + multiset(rest)[x];
      }
    }
  }

  /** A sub-collection of a collection without repeats has none either. */
  lemma DistinctSub<T>(s: seq<T>, t: seq<T>)
    requires Distinct(s) && multiset(t) <= multiset(s)
    ensures Distinct(t)
  {
    DistinctIsUnique(s);
    UniqueSub(s, t);
    UniqueIsDistinct(t);
  }

  /** Appending an element not yet present keeps a collection without
      repeats. */
  lemma DistinctAppend<T>(s: seq<T>, x: T)
    requires Distinct(s) && x !in s
    ensures Distinct(s + [x])
  {
    var t := s + [x];
    forall i, j | 0 <= i < j < |t|
      ensures t[i] != t[j]
    {
      assert t[i] == s[i];
      if j == |s| {
        assert t[i] in s;
      }
    }
  }

  /** Every element of a collection carries part `t`'s sound, as read by
      `tag`. The scheduler builds each ball with the sound of the collection
      it joins, so no ball can sit in two collections. */
  predicate Tagged<T>(bs: seq<T>, tag: T -> Option<Sound>, t: Sound)
  {
    forall i :: 0 <= i < |bs| ==> tag(bs[i]) == Some(t)
  }

  lemma TaggedApart<T>(a: seq<T>, ta: Sound, b: seq<T>, tb: Sound, tag: T -> Option<Sound>)
    requires Tagged(a, tag, ta) && Tagged(b, tag, tb) && ta != tb
    ensures forall x :: x in b ==> x !in a
  {
  }

  lemma TaggedSub<T>(a: seq<T>, b: seq<T>, tag: T -> Option<Sound>, t: Sound)
    requires Tagged(a, tag, t) && multiset(b) <= multiset(a)
    ensures Tagged(b, tag, t)
  {
    forall i | 0 <= i < |b|
      ensures tag(b[i]) == Some(t)
    {
      assert b[i] in multiset(b);
      assert b[i] in a;
    }
  }

  /** An engine's invariant on its three collections: no ball is listed
      twice, and each collection holds balls of its own part only. */
  predicate WellFormed<T(==)>(h: seq<T>, s: seq<T>, k: seq<T>, tag: T -> Option<Sound>)
  {
    && Distinct(h) && Distinct(s) && Distinct(k)
    && Tagged(h, tag, Hihat) && Tagged(s, tag, Snare) && Tagged(k, tag, Kick)
  }

  /** The three collections of a well-formed engine share no ball. */
  lemma Apart<T>(h: seq<T>, s: seq<T>, k: seq<T>, tag: T -> Option<Sound>)
    requires WellFormed(h, s, k, tag)
    ensures forall x :: x in s ==> x !in h
    ensures forall x :: x in k ==> x !in h
    ensures forall x :: x in h ==> x !in s
    ensures forall x :: x in k ==> x !in s
    ensures forall x :: x in h ==> x !in k
    ensures forall x :: x in s ==> x !in k
  {
    TaggedApart(h, Hihat, s, Snare, tag);
    TaggedApart(h, Hihat, k, Kick, tag);
    TaggedApart(s, Snare, h, Hihat, tag);
    TaggedApart(s, Snare, k, Kick, tag);
    TaggedApart(k, Kick, h, Hihat, tag);
    TaggedApart(k, Kick, s, Snare, tag);
  }

  /** The collections after the scheduler appends a new ball `b` of part
      `t` to part `t`'s collection. */
  lemma AppendWellFormed<T>(h: seq<T>, s: seq<T>, k: seq<T>, b: T, tag: T -> Option<Sound>, t: Sound)
    requires WellFormed(h, s, k, tag) && b !in h && b !in s && b !in k && tag(b) == Some(t)
    ensures WellFormed(if t == Hihat then h + [b] else h,
                       if t == Snare then s + [b] else s,
                       if t == Kick then k + [b] else k, tag)
  {
    match t
    case Hihat => DistinctAppend(h, b);
    case Snare => DistinctAppend(s, b);
    case Kick => DistinctAppend(k, b);
  }

  /** Dropping balls keeps the invariant. */
  lemma SubWellFormed<T>(h: seq<T>, s: seq<T>, k: seq<T>, h': seq<T>, s': seq<T>, k': seq<T>, tag: T -> Option<Sound>)
    requires WellFormed(h, s, k, tag)
    requires multiset(h') <= multiset(h) && multiset(s') <= multiset(s) && multiset(k') <= multiset(k)
    ensures WellFormed(h', s', k', tag)
  {
    DistinctSub(h, h');
    DistinctSub(s, s');
    DistinctSub(k, k');
    TaggedSub(h, h', tag, Hihat);
    TaggedSub(s, s', tag, Snare);
    TaggedSub(k, k', tag, Kick);
  }
}
