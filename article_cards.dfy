/**
 * The article cards of a listing page: the search box shows or hides them,
 * and hovering gives each a coloured shadow chosen by its position.
 */
module ArticleCards {
  import opened Wrappers
  import opened Text

  /** Inline `display` values the search handler writes. */
  const SHOWN := ""
  const HIDDEN := "none"

  /** The preset shadow colours, cycled through by card index. */
  const COLORS: seq<string> := ["var(--accent)", "var(--accent-2)", "var(--accent-3)"]
  const SHADOW_PREFIX := "8px 8px 0 "

  /**
   * An `.article-card`: the text of its `.article-title` and `.article-excerpt`
   * children (None when the child is missing) and its inline styles.
   */
  datatype ArticleCard = ArticleCard(
    title: Option<string>,
    excerpt: Option<string>,
    display: string,
    boxShadow: string)

  /** `child?.textContent.toLowerCase() || ''`: a missing child reads as the empty string. */
  function LoweredText(text: Option<string>): (r: string)
    ensures text.None? ==> r == ""
    ensures text.Some? ==> r == Lower(text.value)
  {
    match text
    case None => ""
    case Some(s) => Lower(s)
  }

  /** The card matches the (already lower-cased) search term. */
  predicate Matches(card: ArticleCard, term: string)
    ensures term == [] ==> Matches(card, term)
    ensures card.title.None? && card.excerpt.None? ==> (Matches(card, term) <==> term == [])
  {
    Includes(LoweredText(card.title), term) || Includes(LoweredText(card.excerpt), term)
  }

  /** A card after the search handler has run with input value `value`. */
  function AfterSearch(card: ArticleCard, value: string): (r: ArticleCard)
    ensures r.title == card.title && r.excerpt == card.excerpt && r.boxShadow == card.boxShadow
    ensures r.display == SHOWN || r.display == HIDDEN
    ensures r.display == SHOWN <==> Matches(card, Lower(value))
  {
    card.(display := if Matches(card, Lower(value)) then SHOWN else HIDDEN)
  }

  /** The search input handler: every card is shown or hidden by the lower-cased term. */
  method OnSearchInput(cards: array<ArticleCard>, value: string)
    modifies cards
    ensures forall i :: 0 <= i < cards.Length ==> cards[i] == AfterSearch(old(cards[i]), value)
  {
    var term := Lower(value);
    var i := 0;
    while i < cards.Length
      invariant 0 <= i <= cards.Length
      invariant forall j :: 0 <= j < i ==> cards[j] == AfterSearch(old(cards[j]), value)
      invariant forall j :: i <= j < cards.Length ==> cards[j] == old(cards[j])
    {
      var card := cards[i];
      var title := LoweredText(card.title);
      var excerpt := LoweredText(card.excerpt);
      if Includes(title, term) || Includes(excerpt, term) {
        cards[i] := card.(display := SHOWN);
      } else {
        cards[i] := card.(display := HIDDEN);
      }
      i := i + 1;
    }
  }

  /** An empty search shows every card. */
  lemma EmptySearchShowsAll(card: ArticleCard)
    ensures AfterSearch(card, "").display == SHOWN
  {
  }

  /** The search ignores the case of what is typed. */
  lemma SearchIgnoresCase(card: ArticleCard, value: string)
    ensures AfterSearch(card, Lower(value)) == AfterSearch(card, value)
  {
    LowerIdempotent(value);
  }

  /** Typing more characters can only hide cards, never reveal one. */
  lemma TypingMoreOnlyHides(card: ArticleCard, value: string, more: string)
    ensures AfterSearch(card, value + more).display == SHOWN ==> AfterSearch(card, value).display == SHOWN
  {
    if AfterSearch(card, value + more).display == SHOWN {
      LowerAppend(value, more);
      IncludesPrefix(Lower(value), Lower(more));
      if Includes(LoweredText(card.title), Lower(value + more)) {
        IncludesTransitive(LoweredText(card.title), Lower(value + more), Lower(value));
      } else {
        IncludesTransitive(LoweredText(card.excerpt), Lower(value + more), Lower(value));
      }
    }
  }

  /** A card's visibility depends only on the latest search input. */
  lemma LastSearchWins(card: ArticleCard, first: string, second: string)
    ensures AfterSearch(AfterSearch(card, first), second) == AfterSearch(card, second)
  {
  }

  /** The shadow colour of the card at position `index`. */
  function ShadowColor(index: nat): (c: string)
    ensures c in COLORS
    ensures c == COLORS[index % |COLORS|]
  {
    COLORS[index % |COLORS|]
  }

  /** The colours repeat every three cards, and any three consecutive cards get three different colours. */
  lemma ShadowColorsCycle(index: nat)
    ensures ShadowColor(index + 3) == ShadowColor(index)
    ensures ShadowColor(index) != ShadowColor(index + 1)
    ensures ShadowColor(index) != ShadowColor(index + 2)
    ensures ShadowColor(index + 1) != ShadowColor(index + 2)
  {
  }

  /** The `box-shadow` the card at `index` gets while hovered. */
  function HoverShadow(index: nat): (s: string)
    ensures |s| > |SHADOW_PREFIX| && s[..|SHADOW_PREFIX|] == SHADOW_PREFIX
    ensures s[|SHADOW_PREFIX|..] == ShadowColor(index)
  {
    SHADOW_PREFIX + ShadowColor(index)
  }

  /** `mouseenter` on the card at `index`: it gets its coloured shadow; nothing else changes. */
  method OnMouseEnter(cards: array<ArticleCard>, index: nat)
    requires index < cards.Length
    modifies cards
    ensures cards[index] == old(cards[index]).(boxShadow := HoverShadow(index))
    ensures forall j :: 0 <= j < cards.Length && j != index ==> cards[j] == old(cards[j])
  {
    cards[index] := cards[index].(boxShadow := HoverShadow(index));
  }

  /** `mouseleave` on the card at `index`: its shadow is cleared; nothing else changes. */
  method OnMouseLeave(cards: array<ArticleCard>, index: nat)
    requires index < cards.Length
    modifies cards
    ensures cards[index] == old(cards[index]).(boxShadow := "")
    ensures forall j :: 0 <= j < cards.Length && j != index ==> cards[j] == old(cards[j])
  {
    cards[index] := cards[index].(boxShadow := "");
  }
}
