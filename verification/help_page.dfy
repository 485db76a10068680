/**
 * The help page: the FAQ search, the set of expanded answers, the set of
 * "was this helpful" votes, and the grouping of the search result by
 * category.
 *
 * The FAQ list is a parameter; its icons are not modelled.
 */
module HelpPage {
  import opened Seqs
  import opened Strings

  datatype Faq = Faq(id: string, question: string, answer: string, category: string)

  // ----- search -----

  /** The lower-cased question, answer or category contains the (already lower-cased) query. */
  predicate MatchesQuery(faq: Faq, query: string) {
    Contains(ToLower(faq.question), query) || Contains(ToLower(faq.answer), query) || Contains(ToLower(faq.category), query)
  }

  function QueryFilter(query: string): Faq -> bool {
    (faq: Faq) => MatchesQuery(faq, query)
  }

  /**
   * `filteredFAQs`: a blank query shows every FAQ; otherwise the query,
   * lower-cased but not trimmed, selects the FAQs that mention it, in list order.
   */
  function FilteredFaqs(faqs: seq<Faq>, searchQuery: string): (r: seq<Faq>)
    ensures IsBlank(searchQuery) ==> r == faqs
    ensures IsSubsequence(r, faqs)
    ensures !IsBlank(searchQuery) ==> forall i :: 0 <= i < |r| ==> MatchesQuery(r[i], ToLower(searchQuery))
    ensures !IsBlank(searchQuery) ==> forall i :: 0 <= i < |faqs| && MatchesQuery(faqs[i], ToLower(searchQuery)) ==> faqs[i] in r
  {
    if IsBlank(searchQuery) then
      SubsequenceOfItself(faqs);
      faqs
    else
      FilterIsSubsequence(faqs, QueryFilter(ToLower(searchQuery)));
      Filter(faqs, QueryFilter(ToLower(searchQuery)))
  }

  lemma {:induction false} SubsequenceOfItself<T>(xs: seq<T>)
    ensures IsSubsequence(xs, xs)
    decreases |xs|
  {
    if xs != [] {
      SubsequenceOfItself(xs[1..]);
    }
  }

  /** Whitespace around a query that is not blank is searched for too: `" hooks"` looks for the leading space. */
  lemma QueryIsNotTrimmed(faqs: seq<Faq>, searchQuery: string, faq: Faq)
    requires !IsBlank(searchQuery) && faq in FilteredFaqs(faqs, searchQuery)
    ensures MatchesQuery(faq, ToLower(searchQuery))
  {
    var r := FilteredFaqs(faqs, searchQuery);
    var i :| 0 <= i < |r| && r[i] == faq;
  }

  // ----- grouping -----

  function InCategory(c: string): Faq -> bool {
    (faq: Faq) => faq.category == c
  }

  /** The categories of `faqs`, each once, in order of first appearance. */
  function CategoriesInOrder(faqs: seq<Faq>): (order: seq<string>)
    ensures Distinct(order)
  {
    if faqs == [] then []
    else
      var init := CategoriesInOrder(faqs[..|faqs| - 1]);
      var c := faqs[|faqs| - 1].category;
      if c in init then init else init + [c]
  }

  /** Every category of the list is listed, and nothing else. */
  lemma {:induction false} CategoriesListed(faqs: seq<Faq>)
    ensures forall c :: c in CategoriesInOrder(faqs) <==> exists i :: 0 <= i < |faqs| && faqs[i].category == c
    decreases |faqs|
  {
    if faqs != [] {
      var init := faqs[..|faqs| - 1];
      CategoriesListed(init);
      assert forall i :: 0 <= i < |init| ==> init[i] == faqs[i];
    }
  }

  predicate Distinct(xs: seq<string>) {
    forall i, j :: 0 <= i < j < |xs| ==> xs[i] != xs[j]
  }

  /** The total size of the groups listed in `order`. */
  function GroupSizes(order: seq<string>, grouped: map<string, seq<Faq>>): nat
    decreases |order|
  {
    if order == [] then 0
    else (if order[0] in grouped then |grouped[order[0]]| else 0) + GroupSizes(order[1..], grouped)
  }

  /**
   * `groupedFAQs`: the `forEach` that creates a category's list on its first
   * FAQ and pushes every FAQ onto its own category's list. The object's keys
   * come out in order of first appearance (`order`), as they do for category
   * names that are not integer-like and are not `Object.prototype` members.
   */
  method GroupFaqs(faqs: seq<Faq>) returns (grouped: map<string, seq<Faq>>, order: seq<string>)
    ensures order == CategoriesInOrder(faqs)
    ensures grouped.Keys == set c | c in order
    ensures forall c :: c in grouped ==> grouped[c] == Filter(faqs, InCategory(c))
    ensures GroupSizes(order, grouped) == |faqs|
  {
    grouped, order := map[], [];
    for i := 0 to |faqs|
      invariant GroupsOf(faqs[..i], grouped, order)
    {
      var faq := faqs[i];
      var k := faq.category;
      ghost var before, orderBefore := grouped, order;
      if k !in grouped {
        // the category's first FAQ starts its list
        order := order + [k];
        grouped := grouped[k := [faq]];
      } else {
        grouped := grouped[k := grouped[k] + [faq]];
      }
      assert faqs[..i + 1] == faqs[..i] + [faq];
      GroupStep(faqs[..i], faq, before, orderBefore, grouped, order);
    }
    assert faqs[..|faqs|] == faqs;
  }

  /** The loop invariant of `GroupFaqs`: `grouped` and `order` are the grouping of the FAQs `seen` so far. */
  ghost predicate GroupsOf(seen: seq<Faq>, grouped: map<string, seq<Faq>>, order: seq<string>) {
    && order == CategoriesInOrder(seen)
    && (forall c :: c in grouped <==> c in order)
    && (forall c :: c in grouped ==> grouped[c] == Filter(seen, InCategory(c)))
    && GroupSizes(order, grouped) == |seen|
  }

  /** One step of the `forEach` keeps the invariant. */
  lemma GroupStep(seen: seq<Faq>, faq: Faq, grouped: map<string, seq<Faq>>, order: seq<string>,
                  grouped': map<string, seq<Faq>>, order': seq<string>)
    requires GroupsOf(seen, grouped, order)
    requires faq.category in grouped ==> order' == order && grouped' == grouped[faq.category := grouped[faq.category] + [faq]]
    requires faq.category !in grouped ==> order' == order + [faq.category] && grouped' == grouped[faq.category := [faq]]
    ensures GroupsOf(seen + [faq], grouped', order')
  {
    var k := faq.category;
    CategoriesStep(seen, faq);
    FiltersStep(seen, faq, grouped, grouped');
    if k in grouped {
      GroupSizesBump(order, grouped, k, grouped[k] + [faq]);
    } else {
      GroupSizesNew(order, grouped, k, [faq]);
    }
  }

  lemma FiltersStep(seen: seq<Faq>, faq: Faq, grouped: map<string, seq<Faq>>, grouped': map<string, seq<Faq>>)
    requires forall c :: c in grouped ==> grouped[c] == Filter(seen, InCategory(c))
    requires faq.category !in grouped ==> faq.category !in CategoriesInOrder(seen)
    requires faq.category in grouped ==> grouped' == grouped[faq.category := grouped[faq.category] + [faq]]
    requires faq.category !in grouped ==> grouped' == grouped[faq.category := [faq]]
    ensures forall c :: c in grouped' ==> grouped'[c] == Filter(seen + [faq], InCategory(c))
  {
    var k := faq.category;
    forall c | c in grouped'
      ensures grouped'[c] == Filter(seen + [faq], InCategory(c))
    {
      FilterStep(seen, faq, c);
      if c == k && k !in grouped {
        FilterNoneMatch(seen, k);
      }
    }
  }

  lemma CategoriesStep(seen: seq<Faq>, faq: Faq)
    ensures CategoriesInOrder(seen + [faq])
         == if faq.category in CategoriesInOrder(seen) then CategoriesInOrder(seen) else CategoriesInOrder(seen) + [faq.category]
  {
    var all := seen + [faq];
    assert all[..|all| - 1] == seen;
  }

  /** Appending one FAQ extends its own category's filter by it and leaves the others alone. */
  lemma FilterStep(seen: seq<Faq>, faq: Faq, c: string)
    ensures Filter(seen + [faq], InCategory(c)) == Filter(seen, InCategory(c)) + (if faq.category == c then [faq] else [])
  {
    FilterAppend(seen, [faq], InCategory(c));
    assert [faq][1..] == [];
  }

  /** A new key appended to `order` with a one-FAQ group adds one to the total. */
  lemma GroupSizesNew(order: seq<string>, grouped: map<string, seq<Faq>>, k: string, v: seq<Faq>)
    requires k !in order && |v| == 1
    ensures GroupSizes(order + [k], grouped[k := v]) == GroupSizes(order, grouped) + 1
  {
    GroupSizesIgnores(order, grouped, k, v);
    GroupSizesAppend(order, [k], grouped[k := v]);
    assert [k][1..] == [];
  }

  /** No FAQ of `seen` is in a category that has not been seen. */
  lemma FilterNoneMatch(seen: seq<Faq>, k: string)
    requires k !in CategoriesInOrder(seen)
    ensures Filter(seen, InCategory(k)) == []
  {
    CategoriesListed(seen);
    FilterFirst(seen, InCategory(k));
  }

  /** Names the first element of a non-empty filter, so that the facts about it come into play. */
  lemma FilterFirst<T>(xs: seq<T>, p: T -> bool)
    ensures Filter(xs, p) != [] ==> Filter(xs, p)[0] in xs && p(Filter(xs, p)[0])
  {
  }

  lemma {:induction false} GroupSizesBump(order: seq<string>, grouped: map<string, seq<Faq>>, k: string, v: seq<Faq>)
    requires Distinct(order) && k in order && k in grouped && |v| == |grouped[k]| + 1
    ensures GroupSizes(order, grouped[k := v]) == GroupSizes(order, grouped) + 1
    decreases |order|
  {
    if order[0] == k {
      assert k !in order[1..];
      GroupSizesIgnores(order[1..], grouped, k, v);
    } else {
      GroupSizesBump(order[1..], grouped, k, v);
    }
  }

  /** A key outside `order` does not count towards the total. */
  lemma {:induction false} GroupSizesIgnores(order: seq<string>, grouped: map<string, seq<Faq>>, k: string, v: seq<Faq>)
    requires k !in order
    ensures GroupSizes(order, grouped[k := v]) == GroupSizes(order, grouped)
    decreases |order|
  {
    if order != [] {
      GroupSizesIgnores(order[1..], grouped, k, v);
    }
  }

  lemma {:induction false} GroupSizesAppend(xs: seq<string>, ys: seq<string>, grouped: map<string, seq<Faq>>)
    ensures GroupSizes(xs + ys, grouped) == GroupSizes(xs, grouped) + GroupSizes(ys, grouped)
    decreases |xs|
  {
    if xs == [] {
      assert xs + ys == ys;
    } else {
      assert (xs + ys)[1..] == xs[1..] + ys;
      GroupSizesAppend(xs[1..], ys, grouped);
    }
  }

  /** Each FAQ appears in the group of its own category and in no other. */
  lemma EachFaqInItsOwnGroup(faqs: seq<Faq>, grouped: map<string, seq<Faq>>, i: nat, c: string)
    requires forall c :: c in grouped ==> grouped[c] == Filter(faqs, InCategory(c))
    requires i < |faqs| && c in grouped
    ensures faqs[i] in grouped[c] <==> faqs[i].category == c
  {
  }

  // ----- expanded answers and votes -----

  /** `toggleItem` on a set: `id` is removed when present and added when absent. */
  function Toggled(open: set<string>, id: string): (r: set<string>)
    ensures id in r <==> id !in open
    ensures forall x :: x != id ==> (x in r <==> x in open)
  {
    if id in open then open - {id} else open + {id}
  }

  /** Toggling the same item twice restores the set. */
  lemma ToggleTwice(open: set<string>, id: string)
    ensures Toggled(Toggled(open, id), id) == open
  {
  }

  /** `${id}-${isHelpful}`. */
  function FeedbackKey(id: string, isHelpful: bool): string {
    id + "-" + (if isHelpful then "true" else "false")
  }

  /** Different votes are recorded under different keys: the key gives back the FAQ and the answer. */
  lemma FeedbackKeyInjective(id1: string, b1: bool, id2: string, b2: bool)
    requires FeedbackKey(id1, b1) == FeedbackKey(id2, b2)
    ensures id1 == id2 && b1 == b2
  {
    var key := FeedbackKey(id1, b1);
    var w1 := if b1 then "true" else "false";
    var w2 := if b2 then "true" else "false";
    assert key == id1 + ("-" + w1) == id2 + ("-" + w2);
    assert key[|key| - 4..] == w1[|w1| - 4..] == w2[|w2| - 4..];
    assert id1 == key[..|key| - |w1| - 1] == key[..|key| - |w2| - 1] == id2;
  }

  /** The page state the two click handlers update. */
  class HelpState {
    var openItems: set<string>
    var helpfulFeedback: set<string>

    constructor ()
      ensures openItems == {} && helpfulFeedback == {}
    {
      openItems := {};
      helpfulFeedback := {};
    }

    /** `toggleItem`: flips `id`, leaves every other item and the votes alone. */
    method ToggleItem(id: string)
      modifies this
      ensures openItems == Toggled(old(openItems), id)
      ensures helpfulFeedback == old(helpfulFeedback)
    {
      var newOpen := openItems;
      if id in newOpen {
        newOpen := newOpen - {id};
      } else {
        newOpen := newOpen + {id};
      }
      openItems := newOpen;
    }

    /** `handleHelpful`: records one vote; no vote is ever removed. */
    method HandleHelpful(id: string, isHelpful: bool)
      modifies this
      ensures helpfulFeedback == old(helpfulFeedback) + {FeedbackKey(id, isHelpful)}
      ensures openItems == old(openItems)
    {
      var newFeedback := helpfulFeedback;
      newFeedback := newFeedback + {FeedbackKey(id, isHelpful)};
      helpfulFeedback := newFeedback;
    }
  }
}
