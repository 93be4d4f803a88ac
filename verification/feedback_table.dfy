/**
 * The feedback table: free-text search over four fields, fixed-size pages,
 * the clamped previous/next controls, the strip of page numbers with
 * ellipses, and the colours of the score circle and the sentiment badge.
 */
module FeedbackTable {
  import opened JsString
  import opened FeedbackContext

  const ItemsPerPage: nat := 10

  function Min(a: int, b: int): int { if a <= b then a else b }
  function Max(a: int, b: int): int { if a >= b then a else b }

  // ---------------------------------------------------------------------
  // Search

  /**
   * A record is kept when the lower-cased term occurs in the lower-cased
   * text, source, category or product; id, date, sentiment and score are
   * never searched.
   */
  predicate Matches(f: Feedback, term: string)
    ensures Matches(f, term) <==>
      exists i :: OccursAt(Lower(f.text), Lower(term), i)
               || OccursAt(Lower(f.source), Lower(term), i)
               || OccursAt(Lower(f.category), Lower(term), i)
               || OccursAt(Lower(f.product), Lower(term), i)
  {
    var t := Lower(term);
    ContainsIff(Lower(f.text), t);
    ContainsIff(Lower(f.source), t);
    ContainsIff(Lower(f.category), t);
    ContainsIff(Lower(f.product), t);
    Contains(Lower(f.text), t) || Contains(Lower(f.source), t)
    || Contains(Lower(f.category), t) || Contains(Lower(f.product), t)
  }

  /** `filteredFeedbacks`: the matching records, in their original order. */
  function FilterFeedbacks(records: seq<Feedback>, term: string): (r: seq<Feedback>)
    ensures |r| <= |records|
    ensures forall f :: f in r <==> f in records && Matches(f, term)
  {
    if records == [] then []
    else (if Matches(records[0], term) then [records[0]] else []) + FilterFeedbacks(records[1..], term)
  }

  /** Filtering a concatenation filters each part: the filter keeps the input order. */
  lemma {:induction false} FilterAppend(a: seq<Feedback>, b: seq<Feedback>, term: string)
    ensures FilterFeedbacks(a + b, term) == FilterFeedbacks(a, term) + FilterFeedbacks(b, term)
  {
    if a == [] {
      assert a + b == b;
    } else {
      assert (a + b)[1..] == a[1..] + b;
      FilterAppend(a[1..], b, term);
    }
  }

  /** The empty search term keeps every record. */
  lemma {:induction false} FilterEmptyTerm(records: seq<Feedback>)
    ensures FilterFeedbacks(records, "") == records
  {
    if records != [] {
      ContainsEmpty(Lower(records[0].text));
      FilterEmptyTerm(records[1..]);
    }
  }

  /** Terms that lower-case alike select the same records ("MOBILE" and "mobile"). */
  lemma {:induction false} FilterCaseInsensitive(records: seq<Feedback>, t1: string, t2: string)
    requires Lower(t1) == Lower(t2)
    ensures FilterFeedbacks(records, t1) == FilterFeedbacks(records, t2)
  {
    if records != [] {
      FilterCaseInsensitive(records[1..], t1, t2);
    }
  }

  // ---------------------------------------------------------------------
  // Pages

  /** `Math.ceil(n / itemsPerPage)`. */
  function TotalPages(n: nat): (p: nat)
    ensures n <= p * ItemsPerPage
    ensures p > 0 ==> (p - 1) * ItemsPerPage < n
  {
    (n + ItemsPerPage - 1) / ItemsPerPage
  }

  /** `items.slice((page - 1) * 10, (page - 1) * 10 + 10)`; JavaScript clamps both ends. */
  function Paginate<T>(items: seq<T>, page: int): (r: seq<T>)
    requires page >= 1
    ensures |r| <= ItemsPerPage
    ensures (page - 1) * ItemsPerPage >= |items| <==> r == []
    ensures (page - 1) * ItemsPerPage < |items| ==>
      |r| == Min(ItemsPerPage, |items| - (page - 1) * ItemsPerPage)
    ensures forall k :: 0 <= k < |r| ==> r[k] == items[(page - 1) * ItemsPerPage + k]
  {
    var start := (page - 1) * ItemsPerPage;
    if start >= |items| then [] else items[start..Min(start + ItemsPerPage, |items|)]
  }

  /** Pages `1 .. k` laid end to end. */
  function ConcatPages<T>(items: seq<T>, k: nat): seq<T>
  {
    if k == 0 then [] else ConcatPages(items, k - 1) + Paginate(items, k)
  }

  lemma {:induction false} ConcatPagesPrefix<T>(items: seq<T>, k: nat)
    ensures ConcatPages(items, k) == items[..Min(k * ItemsPerPage, |items|)]
  {
    if k > 0 {
      ConcatPagesPrefix(items, k - 1);
      var lo := Min((k - 1) * ItemsPerPage, |items|);
      var hi := Min(k * ItemsPerPage, |items|);
      assert Paginate(items, k) == items[lo..hi];
      assert items[..lo] + items[lo..hi] == items[..hi];
    }
  }

  /** Concatenating pages `1 .. totalPages` gives back the whole list, in order. */
  lemma PagesReconstruct<T>(items: seq<T>)
    ensures ConcatPages(items, TotalPages(|items|)) == items
  {
    ConcatPagesPrefix(items, TotalPages(|items|));
    assert items[..|items|] == items;
  }

  /** Ten records: page 1 holds all of them and page 2 is empty. */
  lemma PaginateTen<T>(items: seq<T>)
    requires |items| == 10
    ensures Paginate(items, 1) == items && Paginate(items, 2) == [] && TotalPages(10) == 1
  {
    assert items[0..10] == items;
  }

  // ---------------------------------------------------------------------
  // The strip of page numbers

  datatype PageEntry = Link(page: nat, active: bool) | Ellipsis(page: nat)

  /** Page 1, the last page and the neighbours of the current page get a link. */
  predicate IsLinkPage(p: int, total: int, current: int)
  {
    p == 1 || p == total || (current - 1 <= p <= current + 1)
  }

  /** A gap marker stands at page 2 or at the page before the last. */
  predicate IsEllipsisPage(p: int, total: int, current: int)
  {
    (p == 2 && current > 3) || (p == total - 1 && current < total - 2)
  }

  /** What page `p` renders: an active or inactive link, an ellipsis, or nothing. */
  function EntryAt(p: nat, total: nat, current: int): (r: seq<PageEntry>)
    ensures forall e :: e in r ==> e.page == p
    ensures |r| <= 1
  {
    if IsLinkPage(p, total, current) then [Link(p, p == current)]
    else if IsEllipsisPage(p, total, current) then [Ellipsis(p)]
    else []
  }

  /** The entries rendered for pages `p .. total`, skipping pages that render nothing. */
  function StripFrom(p: nat, total: nat, current: int): (r: seq<PageEntry>)
    ensures forall k :: 0 <= k < |r| ==> p <= r[k].page <= total
    ensures forall k, l :: 0 <= k < l < |r| ==> r[k].page < r[l].page
    ensures |r| <= if p <= total then total + 1 - p else 0
    decreases total + 1 - p
  {
    if p > total then [] else EntryAt(p, total, current) + StripFrom(p + 1, total, current)
  }

  /** The pagination strip for `totalPages` pages while `currentPage` is shown. */
  function PageStrip(total: nat, current: int): (r: seq<PageEntry>)
    ensures forall k :: 0 <= k < |r| ==> 1 <= r[k].page <= total
    ensures forall k, l :: 0 <= k < l < |r| ==> r[k].page < r[l].page
    ensures |r| <= total
  {
    StripFrom(1, total, current)
  }

  /** An entry for page `q` is in the strip from `p` on exactly when page `q` renders it. */
  lemma {:induction false} StripFromEntries(p: nat, total: nat, current: int, q: int)
    requires p <= q <= total
    ensures forall e: PageEntry :: e.page == q ==> (e in StripFrom(p, total, current) <==> e in EntryAt(q, total, current))
    decreases total + 1 - p
  {
    var rest := StripFrom(p + 1, total, current);
    assert StripFrom(p, total, current) == EntryAt(p, total, current) + rest;
    if q > p {
      StripFromEntries(p + 1, total, current, q);
    } else {
      assert forall k :: 0 <= k < |rest| ==> rest[k].page != q;
    }
  }

  /**
   * A page is a link iff it is 1, last, or next to the current one, and the
   * link is active iff it is the current page; a page is a gap marker iff
   * it is not a link and the gap rule holds.
   */
  lemma PageStripEntries(total: nat, current: int, q: int)
    requires 1 <= q <= total
    ensures Link(q, q == current) in PageStrip(total, current) <==> IsLinkPage(q, total, current)
    ensures forall a :: Link(q, a) in PageStrip(total, current) ==> a == (q == current)
    ensures Ellipsis(q) in PageStrip(total, current) <==>
      !IsLinkPage(q, total, current) && IsEllipsisPage(q, total, current)
  {
    StripFromEntries(1, total, current, q);
  }

  /** Every gap marker stands at page 2 or at the page before the last. */
  lemma EllipsisPositions(total: nat, current: int)
    ensures forall e :: e in PageStrip(total, current) && e.Ellipsis? ==>
      (e.page == 2 && current > 3) || (e.page == total - 1 && current < total - 2)
  {
    forall e | e in PageStrip(total, current) && e.Ellipsis?
      ensures (e.page == 2 && current > 3) || (e.page == total - 1 && current < total - 2)
    {
      PageStripEntries(total, current, e.page);
    }
  }

  function CountLinks(entries: seq<PageEntry>): nat
  {
    if entries == [] then 0 else (if entries[0].Link? then 1 else 0) + CountLinks(entries[1..])
  }

  function Ind(b: bool): nat { if b then 1 else 0 }

  /** How many of the five candidate link pages 1, total, current - 1, current, current + 1 are at least `p`. */
  function CandidatesFrom(p: int, total: int, current: int): nat
  {
    Ind(1 >= p) + Ind(total >= p) + Ind(current - 1 >= p) + Ind(current >= p) + Ind(current + 1 >= p)
  }

  /** Page `p` adds one link to the count when it is a link page and none otherwise. */
  lemma CountLinksStep(p: nat, total: nat, current: int)
    requires p <= total
    ensures CountLinks(StripFrom(p, total, current))
      == Ind(IsLinkPage(p, total, current)) + CountLinks(StripFrom(p + 1, total, current))
  {
    var here, rest := EntryAt(p, total, current), StripFrom(p + 1, total, current);
    assert StripFrom(p, total, current) == here + rest;
    if here != [] {
      assert (here + rest)[1..] == rest;
    } else {
      assert here + rest == rest;
    }
  }

  /** A link page is one of the five candidates, so it uses one of them up. */
  lemma CandidatesStep(p: nat, total: nat, current: int)
    ensures CandidatesFrom(p, total, current)
      >= Ind(IsLinkPage(p, total, current)) + CandidatesFrom(p + 1, total, current)
  {
  }

  lemma {:induction false} CountLinksFrom(p: nat, total: nat, current: int)
    ensures CountLinks(StripFrom(p, total, current)) <= CandidatesFrom(p, total, current)
    decreases total + 1 - p
  {
    if p <= total {
      CountLinksFrom(p + 1, total, current);
      CountLinksStep(p, total, current);
      CandidatesStep(p, total, current);
    } else {
      assert StripFrom(p, total, current) == [];
    }
  }

  /** At most five page links are ever rendered. */
  lemma AtMostFiveLinks(total: nat, current: int)
    ensures CountLinks(PageStrip(total, current)) <= 5
  {
    CountLinksFrom(1, total, current);
  }

  // ---------------------------------------------------------------------
  // Colours

  datatype Colour = Green | Red | Grey

  /** Colour of the score circle: at least 70 green, else at most 40 red, else grey. */
  function ScoreColour(score: int): (c: Colour)
    ensures c == Green <==> score >= 70
    ensures c == Red <==> score <= 40
    ensures c == Grey <==> 40 < score < 70
  {
    if score >= 70 then Green else if score <= 40 then Red else Grey
  }

  datatype Badge = Badge(caption: string, colour: Colour)

  /** `getSentimentBadge`. */
  function SentimentBadge(s: Sentiment): (b: Badge)
    ensures b.colour == Green <==> s == Positive
    ensures b.colour == Red <==> s == Negative
    ensures b.colour == Grey <==> s == Neutral
  {
    match s
    case Positive => Badge("Positive", Green)
    case Negative => Badge("Negative", Red)
    case Neutral => Badge("Neutral", Grey)
  }

  /**
   * The score circle and the sentiment badge agree in colour except at the
   * two boundary scores: 70 is a green score with a neutral badge and 40 a
   * red score with a neutral badge.
   */
  lemma BadgeAgreesWithScoreColour(f: Feedback)
    requires WellFormed(f)
    ensures f.score != 40 && f.score != 70 ==> SentimentBadge(f.sentiment).colour == ScoreColour(f.score)
    ensures f.score == 70 || f.score == 40 ==>
      f.sentiment == Neutral && ScoreColour(f.score) != SentimentBadge(f.sentiment).colour
  {
  }

  // ---------------------------------------------------------------------
  // The table's own state

  /** `FeedbackTable`'s `searchTerm` and `currentPage`; the records are a prop. */
  class TableState {
    var searchTerm: string
    var currentPage: int

    ghost predicate Valid()
      reads this
    {
      currentPage >= 1
    }

    constructor ()
      ensures Valid() && searchTerm == "" && currentPage == 1
    {
      searchTerm := "";
      currentPage := 1;
    }

    function Filtered(feedbacks: seq<Feedback>): seq<Feedback>
      reads this
    {
      FilterFeedbacks(feedbacks, searchTerm)
    }

    /** The rows shown: the current page of the filtered records. */
    function Shown(feedbacks: seq<Feedback>): (rows: seq<Feedback>)
      reads this
      requires Valid()
      ensures |rows| <= ItemsPerPage
      ensures forall f :: f in rows ==> f in feedbacks && Matches(f, searchTerm)
    {
      Paginate(Filtered(feedbacks), currentPage)
    }

    /** The pagination controls are rendered only for a non-empty filtered list. */
    predicate ShowsPagination(feedbacks: seq<Feedback>)
      reads this
    {
      |Filtered(feedbacks)| > 0
    }

    /** Typing in the search box; the current page is not reset. */
    method SetSearchTerm(term: string)
      modifies this`searchTerm
      ensures searchTerm == term
    {
      searchTerm := term;
    }

    /** Previous: `Math.max(prev - 1, 1)`. */
    method PreviousPage()
      requires Valid()
      modifies this`currentPage
      ensures Valid()
      ensures currentPage == Max(old(currentPage) - 1, 1)
    {
      currentPage := Max(currentPage - 1, 1);
    }

    /** Next: `Math.min(prev + 1, totalPages)`; brings a page left too large by a new search back to the last page. */
    method NextPage(feedbacks: seq<Feedback>)
      requires Valid() && ShowsPagination(feedbacks)
      modifies this`currentPage
      ensures Valid()
      ensures currentPage == Min(old(currentPage) + 1, TotalPages(|Filtered(feedbacks)|))
      ensures currentPage <= TotalPages(|Filtered(feedbacks)|)
    {
      currentPage := Min(currentPage + 1, TotalPages(|Filtered(feedbacks)|));
    }

    /** Clicking the link of a page. */
    method GoToPage(page: int)
      requires page >= 1
      modifies this`currentPage
      ensures Valid() && currentPage == page
    {
      currentPage := page;
    }
  }
}
