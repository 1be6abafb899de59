/** Character deletion as done by Python's `s.replace(c, '')`. */
module Text {

  /** `s` with every occurrence of `c` deleted. */
  function RemoveChar(s: string, c: char): (r: string)
    ensures c !in r
    ensures |r| <= |s|
  {
    if s == [] then []
    else if s[0] == c then RemoveChar(s[1..], c)
    else [s[0]] + RemoveChar(s[1..], c)
  }

  /** Deleting `c` removes exactly the occurrences of `c` and keeps every other
      character with its multiplicity. */
  lemma {:induction false} RemoveCharMultiset(s: string, c: char)
    ensures multiset(RemoveChar(s, c)) == multiset(s)[c := 0]
  {
    if s != [] {
      RemoveCharMultiset(s[1..], c);
      assert s == [s[0]] + s[1..];
      assert multiset(s) == multiset([s[0]]) + multiset(s[1..]);
    }
  }

  /** The deletion keeps the surviving characters in their original order:
      it distributes over concatenation. */
  lemma {:induction false} RemoveCharAppend(s: string, t: string, c: char)
    ensures RemoveChar(s + t, c) == RemoveChar(s, c) + RemoveChar(t, c)
  {
    if s != [] {
      assert (s + t)[0] == s[0];
      assert (s + t)[1..] == s[1..] + t;
      RemoveCharAppend(s[1..], t, c);
    } else {
      assert s + t == t;
    }
  }

  /** The text is left unchanged exactly when it holds no `c`. */
  lemma {:induction false} RemoveCharIdentity(s: string, c: char)
    ensures RemoveChar(s, c) == s <==> c !in s
  {
    if s != [] {
      RemoveCharIdentity(s[1..], c);
      if s[0] == c {
        assert c in s;
      } else {
        assert c in s <==> c in s[1..];
      }
    }
  }
}
