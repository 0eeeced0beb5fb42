/** The news card of the right-hand panel (components/RightPanel.tsx): a category filter over fixed items. */
module News {
  import opened Types
  import opened Seqs

  const MockNews: seq<NewsItem> := [
    NewsItem("1", "Tech", "AI Startup funding hits record high in Q3", "2h ago", "TechCrunch"),
    NewsItem("2", "Marketing", "5 Strategies for B2B Growth in 2024", "4h ago", "Forbes"),
    NewsItem("3", "Local", "New incubator opens in Downtown district", "5h ago", "CityBiz"),
    NewsItem("4", "Funding", "Series A checklist for SaaS founders", "1d ago", "VC Daily")
  ]

  /** The category chips the panel offers. */
  const Categories: seq<string> := ["All", "Tech", "Funding", "Marketing"]

  function InCategory(category: string): NewsItem -> bool {
    (n: NewsItem) => n.category == category
  }

  /** `filteredNews`: everything under All, otherwise the items of the chosen category. */
  function FilteredNews(category: string): (r: seq<NewsItem>)
    ensures forall i :: 0 <= i < |r| ==> r[i] in MockNews && (category != "All" ==> r[i].category == category)
  {
    FilterMembers(InCategory(category), MockNews);
    if category == "All" then MockNews else Filter(InCategory(category), MockNews)
  }

  /** The filter keeps exactly the matching items, in their original order. */
  lemma FilterMatchesCategory(category: string)
    ensures category == "All" ==> FilteredNews(category) == MockNews
    ensures category != "All" ==> forall n :: n in FilteredNews(category) <==> n in MockNews && n.category == category
    ensures IsSubsequence(FilteredNews(category), MockNews)
  {
    FilterIsSubsequence(InCategory(category), MockNews);
    FilterMembers(InCategory(category), MockNews);
    if category == "All" {
      assert IsSubsequence(MockNews[4..], MockNews[4..]);
      assert IsSubsequence(MockNews[3..], MockNews[3..]);
      assert IsSubsequence(MockNews[2..], MockNews[2..]);
      assert IsSubsequence(MockNews[1..], MockNews[1..]);
    }
  }

  /** An item is shown under a chip other than All only when the chip is its category. */
  lemma OnlyOwnCategory(category: string, n: NewsItem)
    requires category != "All" && n.category != category
    ensures n !in FilteredNews(category)
  {
    FilterMembers(InCategory(category), MockNews);
  }

  /** The Local item is shown only under All: no other chip selects it. */
  lemma LocalOnlyUnderAll()
    ensures MockNews[2] in FilteredNews("All")
    ensures forall c :: c in Categories && c != "All" ==> MockNews[2] !in FilteredNews(c)
  {
    forall c | c in Categories && c != "All" ensures MockNews[2] !in FilteredNews(c) {
      assert c[0] != 'L';
      OnlyOwnCategory(c, MockNews[2]);
    }
  }
}
