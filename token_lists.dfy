/** Operations on a user's persisted list of refresh tokens. Login appends to
    the list; logout keeps every entry whose token differs from the one
    presented, in the order the entries had. */
module TokenLists {

  type Token = string

  /** The list without any entry equal to `t`: the `filter` that logout applies
      to the owner's list. */
  function RemoveAll(s: seq<Token>, t: Token): (r: seq<Token>)
    ensures t !in r
    ensures forall x :: x in r <==> x in s && x != t
    ensures |r| <= |s|
    ensures t !in s ==> r == s
  {
    if s == [] then []
    else (if s[0] == t then [] else [s[0]]) + RemoveAll(s[1..], t)
  }

  /** Filtering distributes over concatenation, so the surviving entries keep
      their relative order. */
  lemma {:induction false} RemoveAllAppend(a: seq<Token>, b: seq<Token>, t: Token)
    ensures RemoveAll(a + b, t) == RemoveAll(a, t) + RemoveAll(b, t)
  {
    if a == [] {
      assert a + b == b;
    } else {
      assert (a + b)[1..] == a[1..] + b;
      RemoveAllAppend(a[1..], b, t);
    }
  }

  /** Every entry other than `t` survives as many times as it occurred; every
      copy of `t` is gone. */
  lemma {:induction false} RemoveAllCounts(s: seq<Token>, t: Token)
    ensures multiset(RemoveAll(s, t)) == multiset(s)[t := 0]
  {
    if s == [] {
    } else {
      assert s == [s[0]] + s[1..];
      RemoveAllCounts(s[1..], t);
    }
  }

  /** Removing a token that was appended to a list removes it from the whole
      list: logging out with the token of the latest login undoes that login
      and every earlier one that issued the same token. */
  lemma {:induction false} RemoveAllAfterAppend(s: seq<Token>, t: Token)
    ensures RemoveAll(s + [t], t) == RemoveAll(s, t)
  {
    RemoveAllAppend(s, [t], t);
    assert RemoveAll([t], t) == [];
  }
}
