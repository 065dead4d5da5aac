/** The error checklist: a fixed list of common credit-report errors, a
    case-insensitive search combined with a category chip, the chips
    derived from the list, the severity palette of a card, and the three
    pieces of view state (expanded card, chosen chip, search text). */
module ErrorChecklist {
  import Lists
  import Text

  datatype Option<T> = None | Some(value: T)

  /** One entry of `commonErrors`. */
  datatype ErrorEntry = ErrorEntry(
    id: string,
    category: string,
    title: string,
    description: string,
    howToFix: seq<string>,
    severity: string)

  const CommonErrors: seq<ErrorEntry> := [
    ErrorEntry("1", "Personal Information", "Incorrect Name or Spelling",
      "Your name is misspelled or listed incorrectly on your credit report.",
      ["Gather proof of correct name (ID, Social Security card)",
       "Submit dispute letter to all three bureaus",
       "Include copies of supporting documents",
       "Follow up within 30 days"],
      "medium"),
    ErrorEntry("2", "Personal Information", "Wrong Address Listed",
      "An address you've never lived at appears on your report.",
      ["Check for signs of identity theft",
       "File dispute with credit bureaus",
       "Provide proof of correct addresses",
       "Consider placing a fraud alert"],
      "medium"),
    ErrorEntry("3", "Account Errors", "Accounts That Aren't Yours",
      "Credit accounts you never opened appear on your report.",
      ["Immediately place a fraud alert",
       "File a dispute with all bureaus",
       "Contact the creditor directly",
       "File an FTC identity theft report",
       "Consider a credit freeze"],
      "high"),
    ErrorEntry("4", "Account Errors", "Duplicate Accounts",
      "The same account appears multiple times, inflating your debt.",
      ["Document all instances of duplication",
       "File dispute with bureau",
       "Request removal of duplicates",
       "Monitor for correction confirmation"],
      "high"),
    ErrorEntry("5", "Payment History", "Incorrect Late Payment",
      "A payment marked as late when you paid on time.",
      ["Gather payment records and bank statements",
       "Contact creditor first for goodwill adjustment",
       "File formal dispute if needed",
       "Keep all correspondence records"],
      "high"),
    ErrorEntry("6", "Payment History", "Closed Account Shown as Open",
      "An account you closed still shows as active.",
      ["Obtain closure confirmation from creditor",
       "File dispute with supporting documents",
       "Request status update to 'closed by consumer'"],
      "low"),
    ErrorEntry("7", "Balance Errors", "Incorrect Credit Limit",
      "Your credit limit is shown incorrectly, affecting utilization.",
      ["Get statement showing correct limit",
       "Contact creditor to update information",
       "File dispute if creditor doesn't correct"],
      "medium"),
    ErrorEntry("8", "Balance Errors", "Wrong Balance Amount",
      "Balance shown is higher than your actual balance.",
      ["Compare with recent statements",
       "Document the correct balance",
       "File dispute with proof",
       "Request creditor verification"],
      "medium"),
    ErrorEntry("9", "Collections", "Paid Debt Still Showing",
      "A debt you've paid in full still appears as outstanding.",
      ["Obtain proof of payment/settlement",
       "Request 'paid in full' letter from creditor",
       "File dispute with documentation",
       "Demand removal if debt is old"],
      "high"),
    ErrorEntry("10", "Inquiries", "Unauthorized Hard Inquiries",
      "Credit checks you didn't authorize appear on your report.",
      ["Identify the source of inquiry",
       "File dispute for unauthorized inquiries",
       "Consider fraud alert if suspicious",
       "Monitor for additional unauthorized activity"],
      "low")
  ]

  /** The chip that places no restriction on the category. */
  const AllChip := "All"

  // ---------------------------------------------------------------------
  // Category chips

  /** `errors.map(e => e.category)`. */
  function CategoryNames(errors: seq<ErrorEntry>): seq<string>
  {
    seq(|errors|, i requires 0 <= i < |errors| => errors[i].category)
  }

  /** `categories`: the "All" chip, then each category once, in the order
      of its first appearance. */
  function Categories(errors: seq<ErrorEntry>): seq<string>
  {
    [AllChip] + Lists.Distinct(CategoryNames(errors))
  }

  /** The chips after "All" are exactly the categories that occur, each
      once, ordered by the first entry that carries it. */
  lemma CategoriesSpec(errors: seq<ErrorEntry>)
    ensures Categories(errors)[0] == AllChip
    ensures forall c :: c in Categories(errors)[1..] ==> exists e :: e in errors && e.category == c
    ensures forall e :: e in errors ==> e.category in Categories(errors)[1..]
    ensures Lists.NoDuplicates(Categories(errors)[1..])
    ensures var chips := Categories(errors)[1..];
      forall i, j :: 0 <= i < j < |chips| ==>
        chips[i] in CategoryNames(errors) && chips[j] in CategoryNames(errors) &&
        Lists.FirstIndex(CategoryNames(errors), chips[i]) < Lists.FirstIndex(CategoryNames(errors), chips[j])
  {
    var names := CategoryNames(errors);
    Lists.DistinctSpec(names);
    assert Categories(errors)[1..] == Lists.Distinct(names);
    forall c | c in Lists.Distinct(names)
      ensures exists e :: e in errors && e.category == c
    {
      var i :| 0 <= i < |names| && names[i] == c;
      assert errors[i] in errors;
    }
    forall e | e in errors
      ensures e.category in Lists.Distinct(names)
    {
      var i :| 0 <= i < |errors| && errors[i] == e;
      assert names[i] == e.category;
    }
  }

  /** "All" is always offered, as the first chip. */
  lemma AllChipOffered(errors: seq<ErrorEntry>)
    ensures AllChip in Categories(errors) && Categories(errors)[0] == AllChip
  {
  }

  /** The categories of the shipped list, entry by entry. */
  const CommonCategoryNames: seq<string> := ["Personal Information", "Personal Information",
    "Account Errors", "Account Errors", "Payment History", "Payment History",
    "Balance Errors", "Balance Errors", "Collections", "Inquiries"]

  lemma CommonCategoryNamesListed()
    ensures CategoryNames(CommonErrors) == CommonCategoryNames
  {
    var names := CategoryNames(CommonErrors);
    assert |names| == 10;
    forall i | 0 <= i < 10
      ensures names[i] == CommonCategoryNames[i]
    {
      assert names[i] == CommonErrors[i].category;
    }
  }

  // ---------------------------------------------------------------------
  // Filtering

  /** The search text matches an entry: it is empty, or, lower-cased, it
      occurs in the lower-cased title, description or category. */
  predicate MatchesSearch(e: ErrorEntry, term: string)
  {
    var needle := Text.ToLower(term);
    || term == ""
    || Text.Includes(Text.ToLower(e.title), needle)
    || Text.Includes(Text.ToLower(e.description), needle)
    || Text.Includes(Text.ToLower(e.category), needle)
  }

  /** The chosen chip admits an entry: "All", or its exact category. */
  predicate MatchesCategory(e: ErrorEntry, category: string)
  {
    category == AllChip || e.category == category
  }

  /** `filteredErrors`. */
  function FilteredErrors(errors: seq<ErrorEntry>, term: string, category: string): seq<ErrorEntry>
  {
    Lists.Filter(errors, e => MatchesSearch(e, term) && MatchesCategory(e, category))
  }

  /** The filtered list is an order-preserving sub-list of the entries that
      holds exactly the entries matching both the search and the chip. */
  lemma FilteredErrorsSpec(errors: seq<ErrorEntry>, term: string, category: string)
    ensures Lists.IsSublist(FilteredErrors(errors, term, category), errors)
    ensures forall e :: e in FilteredErrors(errors, term, category) ==>
      e in errors && MatchesSearch(e, term) && MatchesCategory(e, category)
    ensures forall e :: e in errors && MatchesSearch(e, term) && MatchesCategory(e, category) ==>
      e in FilteredErrors(errors, term, category)
    ensures forall e :: multiset(FilteredErrors(errors, term, category))[e] ==
              if MatchesSearch(e, term) && MatchesCategory(e, category) then multiset(errors)[e] else 0
  {
    Lists.FilterSpec(errors, e => MatchesSearch(e, term) && MatchesCategory(e, category));
  }

  /** No search text and the "All" chip show every entry, in order. */
  lemma NoFilterShowsAll(errors: seq<ErrorEntry>)
    ensures FilteredErrors(errors, "", AllChip) == errors
  {
    Lists.FilterKeepsAll(errors, e => MatchesSearch(e, "") && MatchesCategory(e, AllChip));
  }

  /** The test `searchTerm === ""` is subsumed by the substring tests: an
      entry matches exactly when the lower-cased term occurs somewhere in
      its lower-cased title, description or category. */
  lemma SearchMatchIff(e: ErrorEntry, term: string)
    ensures MatchesSearch(e, term) <==>
      || Text.Occurs(Text.ToLower(e.title), Text.ToLower(term))
      || Text.Occurs(Text.ToLower(e.description), Text.ToLower(term))
      || Text.Occurs(Text.ToLower(e.category), Text.ToLower(term))
  {
    var needle := Text.ToLower(term);
    Text.IncludesIffOccurs(Text.ToLower(e.title), needle);
    Text.IncludesIffOccurs(Text.ToLower(e.description), needle);
    Text.IncludesIffOccurs(Text.ToLower(e.category), needle);
    if term == "" {
      assert needle == [];
      assert Text.OccursAt(Text.ToLower(e.title), needle, 0);
    }
  }

  /** Search ignores case: terms with the same lower-case form match the
      same entries. */
  lemma SearchIgnoresCase(e: ErrorEntry, term: string, other: string)
    requires Text.ToLower(term) == Text.ToLower(other)
    ensures MatchesSearch(e, term) == MatchesSearch(e, other)
  {
    assert |term| == |Text.ToLower(term)| == |other|;
  }

  /** Search and chip combine by conjunction: filtering by both is
      filtering by the search, then by the chip. */
  lemma FilterIsSearchThenChip(errors: seq<ErrorEntry>, term: string, category: string)
    ensures FilteredErrors(errors, term, category) ==
            FilteredErrors(FilteredErrors(errors, term, AllChip), "", category)
  {
    var both := e => MatchesSearch(e, term) && MatchesCategory(e, category);
    var search := e => MatchesSearch(e, term) && MatchesCategory(e, AllChip);
    var chip := e => MatchesSearch(e, "") && MatchesCategory(e, category);
    Lists.FilterConjunction(errors, search, chip, both);
  }

  /** A chip other than "All" keeps exactly the entries of its category. */
  lemma ChipKeepsItsCategory(errors: seq<ErrorEntry>, category: string)
    requires category != AllChip
    ensures forall e :: e in FilteredErrors(errors, "", category) <==> e in errors && e.category == category
  {
    FilteredErrorsSpec(errors, "", category);
  }

  /** Every chip, alone, shows at least one entry. */
  lemma EveryChipShowsSomething(errors: seq<ErrorEntry>, category: string)
    requires category in Categories(errors)
    requires errors != []
    ensures FilteredErrors(errors, "", category) != []
  {
    CategoriesSpec(errors);
    FilteredErrorsSpec(errors, "", category);
    if category == AllChip {
      assert errors[0] in errors;
      assert MatchesSearch(errors[0], "") && MatchesCategory(errors[0], category);
    } else {
      assert category in Categories(errors)[1..];
      var e :| e in errors && e.category == category;
      assert MatchesSearch(e, "") && MatchesCategory(e, category);
    }
  }

  // ---------------------------------------------------------------------
  // Severity colours

  /** The five class names of a card's colour scheme. */
  datatype SeverityColors = SeverityColors(bg: string, text: string, border: string, icon: string, badge: string)

  /** The Tailwind colours a card can be drawn in. */
  datatype Hue = Red | Yellow | Emerald | Gray

  /** The `switch` of `getSeverityColor`: which colour a severity gets. */
  function SeverityHue(severity: string): Hue
  {
    if severity == "high" then Red
    else if severity == "medium" then Yellow
    else if severity == "low" then Emerald
    else Gray
  }

  /** The class names returned for each colour. */
  function Scheme(hue: Hue): SeverityColors
  {
    match hue
    case Red =>
      SeverityColors("bg-red-50", "text-red-700", "border-red-200", "text-red-600",
                     "bg-red-100 text-red-800 border-red-200")
    case Yellow =>
      SeverityColors("bg-yellow-50", "text-yellow-700", "border-yellow-200", "text-yellow-600",
                     "bg-yellow-100 text-yellow-800 border-yellow-200")
    case Emerald =>
      SeverityColors("bg-emerald-50", "text-emerald-700", "border-emerald-200", "text-emerald-600",
                     "bg-emerald-100 text-emerald-800 border-emerald-200")
    case Gray =>
      SeverityColors("bg-gray-50", "text-gray-700", "border-gray-200", "text-gray-600",
                     "bg-gray-100 text-gray-800 border-gray-200")
  }

  /** `getSeverityColor`. */
  function GetSeverityColor(severity: string): SeverityColors
  {
    Scheme(SeverityHue(severity))
  }

  /** The four colour schemes are pairwise different. */
  lemma SchemeInjective(h: Hue, k: Hue)
    requires h != k
    ensures Scheme(h) != Scheme(k)
  {
    assert |Scheme(h).bg| != |Scheme(k).bg|;
  }

  /** `getSeverityColor` is total: "high", "medium" and "low" are drawn red,
      yellow and emerald, and every other value falls back to gray. */
  lemma SeverityColorSpec(severity: string)
    ensures GetSeverityColor(severity) == Scheme(Red) <==> severity == "high"
    ensures GetSeverityColor(severity) == Scheme(Yellow) <==> severity == "medium"
    ensures GetSeverityColor(severity) == Scheme(Emerald) <==> severity == "low"
    ensures GetSeverityColor(severity) == Scheme(Gray) <==> severity !in ["high", "medium", "low"]
  {
    var h := SeverityHue(severity);
    forall k: Hue | k != h
      ensures Scheme(h) != Scheme(k)
    {
      SchemeInjective(h, k);
    }
  }

  // ---------------------------------------------------------------------
  // Expanded card

  /** The card toggle: collapse the card if it is the expanded one,
      otherwise expand it (collapsing any other). */
  function Toggle(expanded: Option<string>, id: string): Option<string>
  {
    if expanded == Some(id) then None else Some(id)
  }

  /** After a click the clicked card is expanded exactly when it was not,
      and no other card is expanded. */
  lemma ToggleSpec(expanded: Option<string>, id: string)
    ensures Toggle(expanded, id) == Some(id) <==> expanded != Some(id)
    ensures forall other :: other != id ==> Toggle(expanded, id) != Some(other)
    ensures Toggle(Toggle(Some(id), id), id) == Some(id)
  {
  }

  function EntryId(e: ErrorEntry): string
  {
    e.id
  }

  /** No two entries share an id (the ids are the cards' React keys). */
  predicate IdsDistinct(errors: seq<ErrorEntry>)
  {
    Lists.KeysDistinct(errors, EntryId)
  }

  /** Whatever the filters, the shown cards keep distinct ids, so at most
      one of them is expanded. */
  lemma AtMostOneExpanded(errors: seq<ErrorEntry>, term: string, category: string, expanded: Option<string>)
    requires IdsDistinct(errors)
    ensures var shown := FilteredErrors(errors, term, category);
      forall i, j :: 0 <= i < j < |shown| && expanded == Some(shown[i].id) ==> expanded != Some(shown[j].id)
  {
    var shown := FilteredErrors(errors, term, category);
    FilteredErrorsSpec(errors, term, category);
    Lists.SublistKeysDistinct(shown, errors, EntryId);
  }

  /** The number an id of the shipped list stands for: "1" to "9" by
      their digit, "10" by its length. */
  function IdNumber(id: string): int
  {
    if |id| == 1 then id[0] as int - '0' as int else 10
  }

  lemma CommonIdsNumbered()
    ensures |CommonErrors| == 10
    ensures forall i :: 0 <= i < 10 ==> IdNumber(CommonErrors[i].id) == i + 1
  {
  }

  /** The shipped entries have pairwise different ids, so the cards' React
      keys never clash and `AtMostOneExpanded` applies to them. */
  lemma CommonErrorIdsDistinct()
    ensures IdsDistinct(CommonErrors)
  {
    CommonIdsNumbered();
    forall i, j | 0 <= i < j < |CommonErrors|
      ensures EntryId(CommonErrors[i]) != EntryId(CommonErrors[j])
    {
      assert IdNumber(CommonErrors[i].id) != IdNumber(CommonErrors[j].id);
    }
  }

  // ---------------------------------------------------------------------
  // The component's state

  /** The checklist component: the list it shows and its view state. */
  class Checklist {
    const entries: seq<ErrorEntry>
    var expandedId: Option<string>
    var selectedCategory: string
    var searchTerm: string

    /** The entries' ids are distinct, and the chosen chip is always one of
        the chips on screen: "All" or the category of some entry (see
        CategoriesSpec). */
    ghost predicate Valid()
      reads this
    {
      && IdsDistinct(entries)
      && (selectedCategory == AllChip || exists e :: e in entries && e.category == selectedCategory)
    }

    /** The cards on screen. */
    function Shown(): seq<ErrorEntry>
      reads this
    {
      FilteredErrors(entries, searchTerm, selectedCategory)
    }

    /** Whether the "Clear all filters" button is offered: some search text
        or a chip other than "All". When it is not, every entry is shown. */
    function FiltersActive(): (active: bool)
      reads this
      ensures !active ==> Shown() == entries
    {
      NoFilterShowsAll(entries);
      searchTerm != "" || selectedCategory != AllChip
    }

    constructor ()
      ensures Valid() && entries == CommonErrors
      ensures expandedId == None && selectedCategory == AllChip && searchTerm == ""
    {
      entries := CommonErrors;
      expandedId, selectedCategory, searchTerm := None, AllChip, "";
      new;
      CommonErrorIdsDistinct();
    }

    /** `handleSearch`: the search box's text becomes the search term. */
    method HandleSearch(value: string)
      requires Valid()
      modifies this
      ensures Valid() && searchTerm == value
      ensures selectedCategory == old(selectedCategory) && expandedId == old(expandedId)
    {
      searchTerm := value;
    }

    /** A chip click. */
    method SelectCategory(category: string)
      requires Valid() && category in Categories(entries)
      modifies this
      ensures Valid() && selectedCategory == category
      ensures searchTerm == old(searchTerm) && expandedId == old(expandedId)
    {
      CategoriesSpec(entries);
      assert category == AllChip || category in Categories(entries)[1..];
      selectedCategory := category;
    }

    /** `clearSearch`: only the search term is reset, so the chip alone
        decides what is shown. */
    method ClearSearch()
      requires Valid()
      modifies this
      ensures Valid() && searchTerm == ""
      ensures selectedCategory == old(selectedCategory) && expandedId == old(expandedId)
      ensures forall e :: e in Shown() <==> e in entries && MatchesCategory(e, selectedCategory)
      ensures entries != [] ==> Shown() != []
    {
      searchTerm := "";
      FilteredErrorsSpec(entries, "", selectedCategory);
      if entries != [] {
        if selectedCategory == AllChip {
          assert entries[0] in Shown();
        } else {
          var e :| e in entries && e.category == selectedCategory;
          assert e in Shown();
        }
      }
    }

    /** `clearAll`: search and chip are reset, so every entry is shown; the
        expanded card is left alone. */
    method ClearAll()
      requires Valid()
      modifies this
      ensures Valid() && searchTerm == "" && selectedCategory == AllChip
      ensures expandedId == old(expandedId)
      ensures !FiltersActive() && Shown() == entries
    {
      searchTerm := "";
      selectedCategory := AllChip;
      NoFilterShowsAll(entries);
    }

    /** A click on the header of card `id`. */
    method ToggleCard(id: string)
      requires Valid()
      modifies this
      ensures Valid() && expandedId == Toggle(old(expandedId), id)
      ensures selectedCategory == old(selectedCategory) && searchTerm == old(searchTerm)
      ensures var shown := Shown();
        forall i, j :: 0 <= i < j < |shown| && expandedId == Some(shown[i].id) ==> expandedId != Some(shown[j].id)
    {
      expandedId := if expandedId == Some(id) then None else Some(id);
      AtMostOneExpanded(entries, searchTerm, selectedCategory, expandedId);
    }
  }
}
