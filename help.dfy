/**
 * The help page (`src/pages/Help.tsx`): the fourteen FAQ entries, the category
 * list derived from them, the search and category filter, the set of expanded
 * answers and which category sections are drawn.
 */
module Help {
  import opened Strings
  import opened Lists

  datatype FAQItem = FAQItem(id: string, category: string, question: string, answer: string)

  const FaqData: seq<FAQItem> := [
    FAQItem("1", "Getting Started",
      "How do I create an account?",
      "You can create an account by clicking the \"Sign Up\" button on the login page. Fill in your personal information, choose a secure password, and verify your email address. For demo purposes, you can also use one of our demo accounts with different permission levels."),
    FAQItem("2", "Getting Started",
      "What are the different user roles?",
      "ProfitPulse has three user roles: Guest (view-only access to public data), Trader (full trading capabilities and portfolio management), and Admin (access to administrative features and API documentation). Demo accounts are available for each role."),
    FAQItem("3", "Trading",
      "How do I place a trade?",
      "Navigate to the Trading page from the sidebar menu. Search for the stock symbol you want to trade, select buy or sell, enter the quantity, choose your order type (market, limit, or stop), and confirm your order. All trades are currently simulated for demo purposes."),
    FAQItem("4", "Trading",
      "What order types are supported?",
      "We support three main order types: Market orders (execute immediately at current market price), Limit orders (execute only at a specified price or better), and Stop orders (execute when the stock reaches a specified price). More advanced order types will be added in future updates."),
    FAQItem("5", "Portfolio",
      "How is my portfolio value calculated?",
      "Your portfolio value is the sum of all your stock holdings at current market prices plus your available cash balance. Daily changes are calculated based on the previous day's closing values. All data updates in real-time during market hours."),
    FAQItem("6", "Portfolio",
      "Can I export my portfolio data?",
      "Yes! You can export your watchlist data as a CSV file from the Watchlist page. Portfolio and order history export features are coming soon. The exported data includes all relevant information like symbols, prices, changes, and volumes."),
    FAQItem("7", "Features",
      "How do I add stocks to my watchlist?",
      "Go to the Watchlist page and click \"Add Symbol\". You can either type in a stock symbol or select from our available demo symbols. Your watchlist is automatically saved and will show real-time price updates."),
    FAQItem("8", "Features",
      "What are notifications and how do they work?",
      "Notifications keep you informed about important events like price alerts, trade executions, and market updates. You can view all notifications in the Notification Center and customize which types of alerts you receive in your profile settings."),
    FAQItem("9", "Technical",
      "Is my data secure?",
      "Yes, we take security seriously. All authentication tokens are securely stored, and we use industry-standard security practices. For production use, we recommend enabling two-factor authentication and using strong, unique passwords."),
    FAQItem("10", "Technical",
      "How do I enable high contrast mode?",
      "Click the accessibility button (contrast icon) in the top navigation bar to toggle high contrast mode. This setting is automatically saved and will persist across your sessions. This feature helps users with visual impairments navigate the platform more easily."),
    FAQItem("11", "Account",
      "How do I update my profile information?",
      "Go to the Profile page from the user menu in the top-right corner. You can update your personal information, change your password, and modify notification preferences. Changes are saved automatically."),
    FAQItem("12", "Account",
      "Can I change my user role?",
      "User roles are typically assigned by administrators. For demo purposes, you can log out and log back in with a different demo account to experience different permission levels. Contact support for role changes in production environments."),
    FAQItem("13", "Troubleshooting",
      "Why aren't my price updates working?",
      "Price updates are powered by WebSocket connections. If updates aren't working, check your internet connection and try refreshing the page. The connection status is shown in the top-right corner of the dashboard. Demo data updates every few seconds automatically."),
    FAQItem("14", "Troubleshooting",
      "What should I do if I encounter an error?",
      "If you encounter an error, try refreshing the page first. If the problem persists, check the browser console for error messages and contact our support team through the Contact page. Include details about what you were doing when the error occurred.")]

  /** The category selector's value meaning "every category". */
  const AllCategories: string := "all"

  // ----- categories: `Array.from(new Set(faqData.map(item => item.category)))`

  predicate Unique(s: seq<string>)
  {
    forall i, j :: 0 <= i < j < |s| ==> s[i] != s[j]
  }

  /** The index of the first occurrence of `x`. */
  function FirstIndex(s: seq<string>, x: string): (k: nat)
    requires x in s
    ensures k < |s| && s[k] == x
    ensures forall j :: 0 <= j < k ==> s[j] != x
  {
    if s[0] == x then 0 else 1 + FirstIndex(s[1..], x)
  }

  /** A set's insertion order: each value once, where it first occurs. */
  function Distinct(s: seq<string>): (r: seq<string>)
    ensures forall x :: x in r <==> x in s
    ensures Unique(r)
  {
    if s == [] then []
    else
      var acc := Distinct(s[..|s| - 1]);
      var x := s[|s| - 1];
      assert forall y :: y in s <==> y in s[..|s| - 1] || y == x by {
        assert s == s[..|s| - 1] + [x];
      }
      if x in acc then acc else acc + [x]
  }

  lemma {:induction false} FirstIndexPrefix(s: seq<string>, x: string)
    requires s != [] && x in s[..|s| - 1]
    ensures FirstIndex(s, x) == FirstIndex(s[..|s| - 1], x)
  {
    if s[0] != x {
      assert s[1..][..|s[1..]| - 1] == s[..|s| - 1][1..];
      FirstIndexPrefix(s[1..], x);
    }
  }

  /** The distinct values come in the order of their first occurrences. */
  lemma {:induction false} DistinctInFirstOccurrenceOrder(s: seq<string>)
    ensures forall i, j :: 0 <= i < j < |Distinct(s)| ==>
      FirstIndex(s, Distinct(s)[i]) < FirstIndex(s, Distinct(s)[j])
  {
    if s != [] {
      var p := s[..|s| - 1];
      var x := s[|s| - 1];
      var acc := Distinct(p);
      DistinctInFirstOccurrenceOrder(p);
      assert s == p + [x];
      forall y | y in acc ensures FirstIndex(s, y) == FirstIndex(p, y) && FirstIndex(p, y) < |p| {
        FirstIndexPrefix(s, y);
      }
      if x !in acc {
        assert x !in p;
        assert FirstIndex(s, x) == |p|;
        var r := acc + [x];
        forall i, j | 0 <= i < j < |r| ensures FirstIndex(s, r[i]) < FirstIndex(s, r[j]) {
          assert r[i] == acc[i] && r[i] in acc;
          if j < |acc| { assert r[j] == acc[j] && r[j] in acc; }
        }
      }
    }
  }

  function CategoryOf(items: seq<FAQItem>): (r: seq<string>)
    ensures |r| == |items|
    ensures forall i :: 0 <= i < |items| ==> r[i] == items[i].category
  {
    if items == [] then [] else [items[0].category] + CategoryOf(items[1..])
  }

  function Categories(items: seq<FAQItem>): (r: seq<string>)
    ensures forall c :: c in r <==> c in CategoryOf(items)
    ensures Unique(r)
  {
    Distinct(CategoryOf(items))
  }

  /** The categories are exactly those of some entry, each once, in first-occurrence order. */
  lemma CategoriesFacts(items: seq<FAQItem>)
    ensures forall c :: c in Categories(items) <==> exists i :: 0 <= i < |items| && items[i].category == c
    ensures Unique(Categories(items))
    ensures forall i, j :: 0 <= i < j < |Categories(items)| ==>
      FirstIndex(CategoryOf(items), Categories(items)[i]) < FirstIndex(CategoryOf(items), Categories(items)[j])
  {
    DistinctInFirstOccurrenceOrder(CategoryOf(items));
    forall c ensures c in CategoryOf(items) <==> exists i :: 0 <= i < |items| && items[i].category == c {
      if c in CategoryOf(items) {
        var k := FirstIndex(CategoryOf(items), c);
        assert items[k].category == c;
      }
    }
  }

  // ----- the filter ------------------------------------------------------

  predicate MatchesSearch(query: string, item: FAQItem)
    ensures query == [] ==> MatchesSearch(query, item)
    ensures ToLower(query) == ToLower(item.question) || ToLower(query) == ToLower(item.answer) ==> MatchesSearch(query, item)
  {
    assert IsPrefix(ToLower(query), ToLower(item.question)) ==> Contains(ToLower(item.question), ToLower(query));
    assert IsPrefix(ToLower(query), ToLower(item.answer)) ==> Contains(ToLower(item.answer), ToLower(query));
    Contains(ToLower(item.question), ToLower(query)) || Contains(ToLower(item.answer), ToLower(query))
  }

  function MatchesCategory(selected: string, item: FAQItem): (r: bool)
    ensures selected == AllCategories ==> r
    ensures selected != AllCategories ==> (r <==> item.category == selected)
  {
    selected == AllCategories || item.category == selected
  }

  /** `filteredFAQs`. */
  function Filtered(items: seq<FAQItem>, query: string, selected: string): (r: seq<FAQItem>)
    ensures forall x :: x in r <==> x in items && MatchesSearch(query, x) && MatchesCategory(selected, x)
    ensures Subsequence(r, items)
  {
    Filter(items, (x: FAQItem) => MatchesSearch(query, x) && MatchesCategory(selected, x))
  }

  /** An empty search in every category shows all fourteen entries, in order. */
  lemma EmptySearchShowsAll(items: seq<FAQItem>)
    ensures Filtered(items, "", AllCategories) == items
  {
    forall i | 0 <= i < |items| ensures MatchesSearch("", items[i]) {
      ContainsEmpty(ToLower(items[i].question));
    }
  }

  /** An empty search under "all" keeps the length of the data. */
  lemma EmptySearchLength(items: seq<FAQItem>)
    ensures |Filtered(items, "", AllCategories)| == |items|
  {
    EmptySearchShowsAll(items);
  }

  lemma FaqCount()
    ensures |FaqData| == 14 && |Filtered(FaqData, "", AllCategories)| == 14
  {
    EmptySearchLength(FaqData);
  }

  // ----- sections --------------------------------------------------------

  function SectionItems(filtered: seq<FAQItem>, category: string): (r: seq<FAQItem>)
    ensures forall x :: x in r <==> x in filtered && x.category == category
  {
    Filter(filtered, (x: FAQItem) => x.category == category)
  }

  /** A category heading is drawn when it has a filtered entry and the selector allows it. */
  function ShowsSection(filtered: seq<FAQItem>, selected: string, category: string): (r: bool)
    ensures r <==> (exists x :: x in filtered && x.category == category) &&
                   (selected == AllCategories || selected == category)
  {
    assert |SectionItems(filtered, category)| > 0 ==> SectionItems(filtered, category)[0] in SectionItems(filtered, category);
    |SectionItems(filtered, category)| > 0 && (selected == AllCategories || selected == category)
  }

  /**
   * Every filtered entry is drawn once, in its own category's section, and a
   * drawn section holds only filtered entries of its category.
   */
  lemma SectionsShowFiltered(items: seq<FAQItem>, query: string, selected: string, x: FAQItem)
    requires x in Filtered(items, query, selected)
    ensures x.category in Categories(items)
    ensures ShowsSection(Filtered(items, query, selected), selected, x.category)
    ensures x in SectionItems(Filtered(items, query, selected), x.category)
    ensures forall c :: c != x.category ==> x !in SectionItems(Filtered(items, query, selected), c)
  {
    CategoriesFacts(items);
    var i :| 0 <= i < |items| && items[i] == x;
    assert items[i].category == x.category;
  }

  /** With a category selected, no other category's section is drawn. */
  lemma OnlySelectedSection(items: seq<FAQItem>, query: string, selected: string, c: string)
    requires selected != AllCategories && c != selected
    ensures !ShowsSection(Filtered(items, query, selected), selected, c)
  {
  }

  /** The empty state is shown exactly when no section is. */
  lemma {:induction false} EmptyStateIffNoSection(items: seq<FAQItem>, query: string, selected: string)
    ensures Filtered(items, query, selected) == [] <==>
      forall c :: c in Categories(items) ==> !ShowsSection(Filtered(items, query, selected), selected, c)
  {
    var f := Filtered(items, query, selected);
    if f != [] {
      assert f[0] in f;
      SectionsShowFiltered(items, query, selected, f[0]);
    }
  }

  // ----- the expanded answers ---------------------------------------------

  function Toggled(s: set<string>, id: string): (r: set<string>)
    ensures id in r <==> id !in s
    ensures forall other :: other != id ==> (other in r <==> other in s)
  {
    if id in s then s - {id} else s + {id}
  }

  /** Toggling the same id twice restores the set. */
  lemma ToggleTwice(s: set<string>, id: string)
    ensures Toggled(Toggled(s, id), id) == s
  {
  }

  function Ids(items: seq<FAQItem>): (r: set<string>)
    ensures forall id :: id in r <==> exists i :: 0 <= i < |items| && items[i].id == id
  {
    set i | 0 <= i < |items| :: items[i].id
  }

  class HelpPage {
    /** The FAQ entries the page filters. */
    const faqs: seq<FAQItem>
    var searchQuery: string
    var selectedCategory: string
    var expandedItems: set<string>

    constructor ()
      ensures faqs == FaqData
      ensures searchQuery == [] && selectedCategory == AllCategories && expandedItems == {}
    {
      faqs := FaqData;
      searchQuery := [];
      selectedCategory := AllCategories;
      expandedItems := {};
    }

    function Shown(): (r: seq<FAQItem>)
      reads this
      ensures forall x :: x in r <==> x in faqs && MatchesSearch(searchQuery, x) && MatchesCategory(selectedCategory, x)
      ensures Subsequence(r, faqs)
    {
      Filtered(faqs, searchQuery, selectedCategory)
    }

    /** `toggleExpanded`: the copy gains the id when absent and loses it when present. */
    method ToggleExpanded(id: string)
      modifies this`expandedItems
      ensures expandedItems == Toggled(old(expandedItems), id)
    {
      var next := expandedItems;
      if id in next {
        next := next - {id};
      } else {
        next := next + {id};
      }
      expandedItems := next;
    }

    /** `expandAll`: exactly the ids of the entries now shown. */
    method ExpandAll()
      modifies this`expandedItems
      ensures expandedItems == Ids(Shown())
    {
      expandedItems := Ids(Filtered(faqs, searchQuery, selectedCategory));
    }

    method CollapseAll()
      modifies this`expandedItems
      ensures expandedItems == {}
    {
      expandedItems := {};
    }

    /** An open answer is one that a click on its question would close. */
    function IsExpanded(item: FAQItem): (r: bool)
      reads this
      ensures r <==> item.id !in Toggled(expandedItems, item.id)
    {
      item.id in expandedItems
    }
  }

  /** After "Expand All" every shown answer is open, and only shown ones are. */
  lemma ExpandAllOpensShown(items: seq<FAQItem>, query: string, selected: string, x: FAQItem)
    ensures x in Filtered(items, query, selected) ==> x.id in Ids(Filtered(items, query, selected))
  {
    var f := Filtered(items, query, selected);
    if x in f {
      var i :| 0 <= i < |f| && f[i] == x;
    }
  }
}
