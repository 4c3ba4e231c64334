/** Generic operations on sequences, each with the membership facts its
    users need: the list comprehension with a filter and the set of images. */
module Collections {
  import opened Wrappers

  /** The present values of f over s, in order (a list comprehension
      with a filter). */
  function FilterMap<A, B>(f: A -> Option<B>, s: seq<A>): seq<B> {
    if s == [] then []
    else
      var y := f(s[|s| - 1]);
      FilterMap(f, s[..|s| - 1]) + (if y.Some? then [y.value] else [])
  }

  /** Every kept value comes from an element, and every element's
      present value is kept. */
  lemma {:induction false} FilterMapMembers<A, B>(f: A -> Option<B>, s: seq<A>)
    ensures forall y :: y in FilterMap(f, s) ==> exists i :: 0 <= i < |s| && f(s[i]) == Some(y)
    ensures forall i :: 0 <= i < |s| && f(s[i]).Some? ==> f(s[i]).value in FilterMap(f, s)
  {
    if s != [] {
      var init := s[..|s| - 1];
      FilterMapMembers(f, init);
      assert forall i :: 0 <= i < |init| ==> init[i] == s[i];
    }
  }

  /** Nothing is kept exactly when f gives nothing for every element. */
  lemma FilterMapEmpty<A, B>(f: A -> Option<B>, s: seq<A>)
    ensures FilterMap(f, s) == [] <==> forall i :: 0 <= i < |s| ==> f(s[i]).None?
  {
    FilterMapMembers(f, s);
    if FilterMap(f, s) != [] {
      var y := FilterMap(f, s)[0];
      assert y in FilterMap(f, s);
    }
  }

  /** Splitting off the last element. */
  lemma FilterMapSnoc<A, B>(f: A -> Option<B>, s: seq<A>, x: A)
    ensures FilterMap(f, s + [x]) == FilterMap(f, s) + (if f(x).Some? then [f(x).value] else [])
  {
    assert (s + [x])[..|s|] == s;
  }

  /** `{f(x) for x in s}`. */
  function Image<A, B>(f: A -> B, s: seq<A>): set<B> {
    if s == [] then {} else Image(f, s[..|s| - 1]) + {f(s[|s| - 1])}
  }

  /** The image holds exactly the values of f on the elements. */
  lemma {:induction false} ImageMembers<A, B>(f: A -> B, s: seq<A>)
    ensures forall i :: 0 <= i < |s| ==> f(s[i]) in Image(f, s)
    ensures forall y :: y in Image(f, s) ==> exists i :: 0 <= i < |s| && f(s[i]) == y
  {
    if s != [] {
      var init := s[..|s| - 1];
      ImageMembers(f, init);
      assert forall i :: 0 <= i < |init| ==> init[i] == s[i];
    }
  }

  /** Adding one element adds its image. */
  lemma ImageSnoc<A, B>(f: A -> B, s: seq<A>, x: A)
    ensures Image(f, s + [x]) == Image(f, s) + {f(x)}
  {
    assert (s + [x])[..|s|] == s;
  }

  /** The image of a concatenation is the union of the images. */
  lemma {:induction false} ImageConcat<A, B>(f: A -> B, s: seq<A>, t: seq<A>)
    ensures Image(f, s + t) == Image(f, s) + Image(f, t)
  {
    if t == [] {
      assert s + t == s;
    } else {
      var init := t[..|t| - 1];
      ImageConcat(f, s, init);
      assert s + t == (s + init) + [t[|t| - 1]];
      ImageSnoc(f, s + init, t[|t| - 1]);
    }
  }

  /** When f leaves every element as it is, the image is the set of elements. */
  lemma ImageFixed<A>(f: A -> A, s: seq<A>)
    requires forall i :: 0 <= i < |s| ==> f(s[i]) == s[i]
    ensures Image(f, s) == set x | x in s
  {
    ImageMembers(f, s);
  }
}
