/** The event table's search box and the occupancy bar painted in its last
    column. */
module Common {
  import opened Text
  import opened Numeric
  import opened Wrappers
  import opened Records

  // ---------------------------------------------------------------------
  // The occupancy bar (`OccupancyDelegate.paint`).

  const Green := "#66bb6a"
  const Orange := "#ffa726"
  const Red := "#ef5350"

  /** The bar's colour; a missing ratio counts as 0. */
  function BandColour(ratio: Option<real>): (c: string)
    ensures c == Green || c == Orange || c == Red
  {
    var x := ratio.GetOr(0.0);
    if x < 0.5 then Green else if x < 0.8 then Orange else Red
  }

  /** The three colours are told apart by their second character. */
  lemma ColoursDistinct()
    ensures Green != Orange && Orange != Red && Green != Red
  {
    assert Green[1] == '6' && Orange[1] == 'f' && Red[1] == 'e';
  }

  /** Green below one half, orange from one half to below four fifths, red
      from four fifths on. */
  lemma BandColourBands(ratio: Option<real>)
    ensures BandColour(ratio) == Green <==> ratio.GetOr(0.0) < 0.5
    ensures BandColour(ratio) == Orange <==> 0.5 <= ratio.GetOr(0.0) < 0.8
    ensures BandColour(ratio) == Red <==> 0.8 <= ratio.GetOr(0.0)
  {
    ColoursDistinct();
  }

  /** Green, orange, red in that order. */
  function Severity(c: string): nat {
    if c == Green then 0 else if c == Orange then 1 else 2
  }

  /** A fuller event never gets a milder colour. */
  lemma BandColourMonotone(a: Option<real>, b: Option<real>)
    requires a.GetOr(0.0) <= b.GetOr(0.0)
    ensures Severity(BandColour(a)) <= Severity(BandColour(b))
  {
    BandColourBands(a);
    BandColourBands(b);
    ColoursDistinct();
  }

  /** `int(full_width * ratio)`: the filled part of the bar, drawn only
      when positive. */
  function FillWidth(fullWidth: int, ratio: Option<real>): (w: int)
    ensures 0 <= fullWidth && 0.0 <= ratio.GetOr(0.0) <= 1.0 ==> 0 <= w <= fullWidth
  {
    var x := ratio.GetOr(0.0);
    ScaleWithin(fullWidth as real, x);
    Trunc(fullWidth as real * x)
  }

  lemma ScaleWithin(f: real, x: real)
    ensures 0.0 <= f && 0.0 <= x <= 1.0 ==> 0.0 <= f * x <= f
  {
    if 0.0 <= f && 0.0 <= x <= 1.0 {
      assert f * x <= f * 1.0;
    }
  }

  /** The bar's text: `f"{int(ratio * 100)}%"`, the same label as the
      table's own occupancy text. */
  function BandLabel(ratio: Option<real>): string {
    PercentText(ratio.GetOr(0.0))
  }

  // ---------------------------------------------------------------------
  // The search box (`EventFilterProxyModel`).

  /** Whether a row passes a filter text already in lower case: an empty
      filter passes everything, any other passes a row whose title (column
      0) or hall name (column 3), lower-cased, contains it. */
  function Passes(filter: string, e: Event): bool {
    filter == "" || Contains(Lower(e.title), filter) || Contains(Lower(e.hallName), filter)
  }

  class EventFilter {
    var filterText: string

    constructor()
      ensures filterText == ""
    {
      filterText := "";
    }

    /** `set_filter_text`: the text is kept in lower case. */
    method SetFilterText(text: string)
      modifies this
      ensures filterText == Lower(text)
    {
      filterText := Lower(text);
    }

    /** `filterAcceptsRow`. */
    function FilterAcceptsRow(e: Event): bool
      reads this
    {
      Passes(filterText, e)
    }
  }

  /** After `set_filter_text(t)`, a row passes exactly when t is empty or,
      ignoring case, occurs in the title or in the hall name. */
  lemma PassesIff(t: string, e: Event)
    ensures Passes(Lower(t), e) <==>
      t == "" || (exists i :: OccursAt(Lower(e.title), Lower(t), i)) || (exists i :: OccursAt(Lower(e.hallName), Lower(t), i))
  {
    PassesEmptyIff(t, e);
    ContainsWitness(Lower(e.title), Lower(t));
    ContainsWitness(Lower(e.hallName), Lower(t));
  }

  lemma PassesEmptyIff(t: string, e: Event)
    ensures Passes(Lower(t), e) <==> t == "" || Contains(Lower(e.title), Lower(t)) || Contains(Lower(e.hallName), Lower(t))
  {
    assert |Lower(t)| == |t|;
  }

  /** `Contains` read as a statement about positions. */
  lemma ContainsWitness(hay: string, needle: string)
    ensures Contains(hay, needle) ==> exists i :: OccursAt(hay, needle, i)
    ensures !Contains(hay, needle) ==> forall i :: !OccursAt(hay, needle, i)
  {
    if Contains(hay, needle) {
      var i :| OccursAt(hay, needle, i);
    }
  }

  /** The filter ignores case on both sides: upper-casing the typed text,
      the title and the hall name changes nothing. */
  lemma PassesIgnoresCase(t: string, e: Event)
    ensures Passes(Lower(Upper(t)), e.(title := Upper(e.title), hallName := Upper(e.hallName))) == Passes(Lower(t), e)
  {
    LowerOfUpper(t);
    LowerOfUpper(e.title);
    LowerOfUpper(e.hallName);
  }

  lemma {:induction false} LowerOfUpper(s: string)
    ensures Lower(Upper(s)) == Lower(s)
  {
    if s != [] {
      LowerOfUpper(s[1..]);
    }
  }

  /** Typing more only narrows the list: a row that passes a filter passes
      every piece of it. */
  lemma PassesNarrows(f: string, g: string, e: Event, j: int)
    requires Passes(f, e) && OccursAt(f, g, j)
    ensures Passes(g, e)
  {
    if g != "" {
      assert f != "";
      if Contains(Lower(e.title), f) {
        var i :| OccursAt(Lower(e.title), f, i);
        OccursWithin(Lower(e.title), f, g, i, j);
      } else {
        var i :| OccursAt(Lower(e.hallName), f, i);
        OccursWithin(Lower(e.hallName), f, g, i, j);
      }
    }
  }

  /** A piece of a piece of hay is a piece of hay. */
  lemma OccursWithin(hay: string, f: string, g: string, i: int, j: int)
    requires OccursAt(hay, f, i) && OccursAt(f, g, j)
    ensures OccursAt(hay, g, i + j)
  {
    var piece := hay[i..i + |f|];
    forall k | 0 <= k < |g|
      ensures hay[i + j..i + j + |g|][k] == g[k]
    {
      assert hay[i + j..i + j + |g|][k] == piece[j + k];
      assert piece[j..j + |g|][k] == piece[j + k];
    }
  }
}
