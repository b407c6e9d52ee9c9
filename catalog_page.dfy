/** The public course catalogue: each course is turned into a card with
    fallback values, and the cards are filtered by a search text, a
    category and a level. */
module CatalogPage {
  import opened Common
  import opened ClientTypes

  /** A catalogue card, with the fields the filter and the price tag use. */
  datatype Card = Card(
    id: Id, title: string, description: string, category: string, level: string,
    price: real, isPublished: bool)

  /** displayCourses' mapping: a missing level shows as "Intermediate" and a
      zero price as 49.99. */
  function ToCard(c: CourseRecord): (r: Card)
    ensures r.id == c.id && r.title == c.title && r.description == c.description && r.category == c.category
    ensures r.level == (if c.level == "" then "Intermediate" else c.level)
    ensures r.price == (if c.price == 0.0 then 49.99 else c.price)
    ensures r.isPublished == c.isPublished
  {
    Card(c.id, c.title, c.description, c.category,
      if c.level != "" then c.level else "Intermediate",
      if c.price != 0.0 then c.price else 49.99,
      c.isPublished)
  }

  function ToCards(courses: seq<CourseRecord>): (r: seq<Card>)
    ensures |r| == |courses|
    ensures forall i :: 0 <= i < |r| ==> r[i] == ToCard(courses[i])
  {
    seq(|courses|, i requires 0 <= i < |courses| => ToCard(courses[i]))
  }

  /** A card is shown when its title or description contains the search
      text (ignoring case) and its category and level are the chosen ones
      ("all" for any). Unpublished courses are shown too. */
  predicate CardMatches(query: string, category: string, level: string, d: Card) {
    (Includes(Lower(d.title), Lower(query)) || Includes(Lower(d.description), Lower(query))) &&
    (category == "all" || d.category == category) &&
    (level == "all" || d.level == level)
  }

  function CardMatcher(query: string, category: string, level: string): Card -> bool {
    (d: Card) => CardMatches(query, category, level, d)
  }

  function Visible(cards: seq<Card>, query: string, category: string, level: string): (r: seq<Card>)
    ensures SubseqOf(r, cards)
    ensures forall d :: d in r <==> d in cards && CardMatches(query, category, level, d)
    ensures forall d :: multiset(r)[d] == if CardMatches(query, category, level, d) then multiset(cards)[d] else 0
  {
    Filter(cards, CardMatcher(query, category, level))
  }

  /** The "Clear filters" button shows when some filter is set. */
  predicate FiltersActive(query: string, category: string, level: string) {
    query != "" || category != "all" || level != "all"
  }

  /** With no filter set every card is shown, in order. */
  lemma {:induction false} InactiveFiltersShowAll(cards: seq<Card>, query: string, category: string, level: string)
    requires !FiltersActive(query, category, level)
    ensures Visible(cards, query, category, level) == cards
  {
    forall i | 0 <= i < |cards|
      ensures CardMatches(query, category, level, cards[i])
    {
      IncludesEmpty(Lower(cards[i].title));
    }
    FilterKeepsAll(cards, CardMatcher(query, category, level));
  }

  /** A course stored with no level is found under "Intermediate". A created
      course always has a level, since the schema defaults it to "Beginner";
      an empty one can only come from an update, which runs no validators,
      writing "" or null. */
  lemma MissingLevelListedAsIntermediate(c: CourseRecord)
    requires c.level == ""
    ensures CardMatches("", "all", "Intermediate", ToCard(c))
  {
    IncludesEmpty(Lower(c.title));
  }

  datatype Filters = Filters(query: string, category: string, level: string)

  const NoFilters := Filters("", "all", "all")

  /** The page's filter state. */
  class FilterBar {
    var query: string
    var category: string
    var level: string

    function State(): Filters
      reads this
    {
      Filters(query, category, level)
    }

    constructor ()
      ensures State() == NoFilters
      ensures !FiltersActive(query, category, level)
    {
      query, category, level := "", "all", "all";
    }

    method SetQuery(text: string)
      modifies this
      ensures State() == old(State()).(query := text)
    {
      query := text;
    }

    method SetCategory(value: string)
      modifies this
      ensures State() == old(State()).(category := value)
    {
      category := value;
    }

    method SetLevel(value: string)
      modifies this
      ensures State() == old(State()).(level := value)
    {
      level := value;
    }

    /** Clear filters: back to the initial filters, so every card shows. */
    method Clear()
      modifies this
      ensures State() == NoFilters
      ensures !FiltersActive(query, category, level)
    {
      query, category, level := "", "all", "all";
    }
  }
}
