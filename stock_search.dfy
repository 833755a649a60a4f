/** The stock picker: a fixed list of ten NSE stocks, filtered by a
    case-insensitive substring search on symbol or name. */
module StockSearch {
  import opened Wrappers
  import opened Seqs
  import opened JsText

  datatype Stock = Stock(symbol: string, token: string, name: string, exchange: string)

  const PopularStocks: seq<Stock> := [
    Stock("RELIANCE-EQ", "2885", "Reliance Industries", "NSE"),
    Stock("TCS-EQ", "11536", "Tata Consultancy Services", "NSE"),
    Stock("INFY-EQ", "1594", "Infosys Limited", "NSE"),
    Stock("HDFCBANK-EQ", "1333", "HDFC Bank", "NSE"),
    Stock("ICICIBANK-EQ", "4963", "ICICI Bank", "NSE"),
    Stock("HINDUNILVR-EQ", "356", "Hindustan Unilever", "NSE"),
    Stock("ITC-EQ", "424", "ITC Limited", "NSE"),
    Stock("SBIN-EQ", "3045", "State Bank of India", "NSE"),
    Stock("BHARTIARTL-EQ", "10604", "Bharti Airtel", "NSE"),
    Stock("KOTAKBANK-EQ", "1922", "Kotak Mahindra Bank", "NSE")
  ]

  /** The lower-cased search term occurs in the lower-cased symbol or name. */
  predicate Matches(stock: Stock, searchTerm: string) {
    var term := ToLower(searchTerm);
    Includes(ToLower(stock.symbol), term) || Includes(ToLower(stock.name), term)
  }

  /** `filteredStocks`: the matching stocks, in list order. */
  function FilteredStocks(searchTerm: string): (r: seq<Stock>)
    ensures IsSubsequence(r, PopularStocks)
    ensures forall s :: s in r ==> Matches(s, searchTerm)
    ensures forall s :: s in PopularStocks && Matches(s, searchTerm) ==> s in r
  {
    var p := s => Matches(s, searchTerm);
    FilterIsSubsequence(PopularStocks, p);
    FilterSound(PopularStocks, p);
    FilterComplete(PopularStocks, p);
    Filter(PopularStocks, p)
  }

  /** The "No stocks found" message is shown. */
  predicate NoResultsShown(searchTerm: string) {
    |FilteredStocks(searchTerm)| == 0 && searchTerm != ""
  }

  /** The message is shown exactly when the term is non-empty and no stock in
      the list matches it. */
  lemma NoResultsShownExactly(searchTerm: string)
    ensures NoResultsShown(searchTerm) <==>
      searchTerm != "" && forall s :: s in PopularStocks ==> !Matches(s, searchTerm)
  {
    var r := FilteredStocks(searchTerm);
    if r != [] {
      assert r[0] in r;
    }
  }

  /** An empty search term lists all ten stocks. */
  lemma EmptyTermListsAll()
    ensures FilteredStocks("") == PopularStocks && |FilteredStocks("")| == 10
  {
    forall s | s in PopularStocks
      ensures Matches(s, "")
    {
      assert "" <= ToLower(s.symbol)[0..];
    }
    FilterKeepsAll(PopularStocks, s => Matches(s, ""));
  }

  /** Terms that differ only in the case of their letters give the same
      list. */
  lemma CaseDoesNotMatter(term: string, term': string)
    requires |term| == |term'| && forall k :: 0 <= k < |term| ==> LowerChar(term[k]) == LowerChar(term'[k])
    ensures FilteredStocks(term) == FilteredStocks(term')
  {
    assert ToLower(term) == ToLower(term');
    FilterCongruent(PopularStocks, s => Matches(s, term), s => Matches(s, term'));
  }

  /** In particular, upper-casing the term changes nothing. */
  lemma UpperCaseTermSameList(term: string)
    ensures FilteredStocks(ToUpper(term)) == FilteredStocks(term)
  {
    forall k | 0 <= k < |term|
      ensures LowerChar(ToUpper(term)[k]) == LowerChar(term[k])
    {
    }
    CaseDoesNotMatter(ToUpper(term), term);
  }

  /** No two stocks of `xs` share a token. */
  predicate DistinctTokens(xs: seq<Stock>) {
    forall i, j :: 0 <= i < j < |xs| ==> xs[i].token != xs[j].token
  }

  /** The tokens, used as list keys, are pairwise distinct. */
  lemma TokensDistinct()
    ensures DistinctTokens(PopularStocks)
  {
  }

  /** Filtering keeps tokens distinct. */
  lemma {:induction false} FilterKeepsTokensDistinct(xs: seq<Stock>, p: Stock -> bool)
    requires DistinctTokens(xs)
    ensures DistinctTokens(Filter(xs, p))
    decreases |xs|
  {
    if xs != [] {
      var tail := Filter(xs[1..], p);
      FilterKeepsTokensDistinct(xs[1..], p);
      if p(xs[0]) {
        FilterSound(xs[1..], p);
        forall j | 0 <= j < |tail|
          ensures xs[0].token != tail[j].token
        {
          assert tail[j] in xs[1..];
          var k :| 0 <= k < |xs[1..]| && xs[1..][k] == tail[j];
          assert xs[k + 1] == tail[j];
        }
        assert Filter(xs, p) == [xs[0]] + tail;
      } else {
        assert Filter(xs, p) == tail;
      }
    }
  }

  /** The listed stocks have distinct tokens. */
  lemma FilteredTokensDistinct(searchTerm: string)
    ensures DistinctTokens(FilteredStocks(searchTerm))
  {
    TokensDistinct();
    FilterKeepsTokensDistinct(PopularStocks, s => Matches(s, searchTerm));
  }

  /** A card is highlighted when the selected stock has its token. */
  predicate Highlighted(selected: Option<Stock>, stock: Stock) {
    selected.Some? && selected.value.token == stock.token
  }

  /** At most one listed card is highlighted. */
  lemma AtMostOneHighlighted(searchTerm: string, selected: Option<Stock>)
    ensures var cards := FilteredStocks(searchTerm);
      forall i, j :: 0 <= i < j < |cards| ==> !(Highlighted(selected, cards[i]) && Highlighted(selected, cards[j]))
  {
    FilteredTokensDistinct(searchTerm);
  }
}
