/**
 * The training-types endpoint: a fixed catalogue of eight training types,
 * optionally narrowed to one category compared without regard to case.
 */
module TrainingTypes {
  import opened Wrappers
  import opened Text

  datatype TrainingType = TrainingType(id: nat, name: string, category: string, duration: nat)

  /** The catalogue, in the order the endpoint returns it. */
  const Catalogue: seq<TrainingType> := [
    TrainingType(1, "Azure Fundamentals", "Azure", 60),
    TrainingType(2, "Python Basics", "Python", 90),
    TrainingType(3, "Advanced Python", "Python", 120),
    TrainingType(4, "Azure DevOps", "Azure", 90),
    TrainingType(5, "Data Science with Python", "Python", 120),
    TrainingType(6, "Azure AI Services", "Azure", 90),
    TrainingType(7, "Web Development", "General", 120),
    TrainingType(8, "Database Management", "General", 90)
  ]

  /** `t.category.toLowerCase() === category.toLowerCase()`. */
  predicate InCategory(t: TrainingType, category: string)
  {
    Lower(t.category) == Lower(category)
  }

  /** `types.filter(type => type.category.toLowerCase() === category.toLowerCase())`. */
  function FilterByCategory(types: seq<TrainingType>, category: string): (r: seq<TrainingType>)
    ensures |r| <= |types|
  {
    if types == [] then []
    else if InCategory(types[0], category) then [types[0]] + FilterByCategory(types[1..], category)
    else FilterByCategory(types[1..], category)
  }

  /**
   * The endpoint's answer for the `category` query parameter: the whole
   * catalogue when the parameter is absent or empty (both are falsy), the
   * entries of that category otherwise.
   */
  function ListTrainingTypes(category: Option<string>): (r: seq<TrainingType>)
    ensures category.None? || category.value == [] ==> r == Catalogue
    ensures category.Some? && category.value != [] ==>
      forall t :: t in r <==> t in Catalogue && InCategory(t, category.value)
  {
    if category.Some? && category.value != [] then
      FilterKeepsCategory(Catalogue, category.value);
      FilterByCategory(Catalogue, category.value)
    else Catalogue
  }

  /** The filter keeps exactly the entries of the category. */
  lemma {:induction false} FilterKeepsCategory(types: seq<TrainingType>, category: string)
    ensures forall t :: t in FilterByCategory(types, category) <==> t in types && InCategory(t, category)
  {
    if types != [] {
      FilterKeepsCategory(types[1..], category);
      assert types == [types[0]] + types[1..];
    }
  }

  /** The filter keeps order: filtering a concatenation filters each part in turn. */
  lemma {:induction false} FilterDistributes(a: seq<TrainingType>, b: seq<TrainingType>, category: string)
    ensures FilterByCategory(a + b, category) == FilterByCategory(a, category) + FilterByCategory(b, category)
  {
    if a != [] {
      FilterDistributes(a[1..], b, category);
      assert (a + b)[1..] == a[1..] + b;
    } else {
      assert a + b == b;
    }
  }

  /** The filter returns nothing exactly when no entry is of the category. */
  lemma {:induction false} FilterEmptyIff(types: seq<TrainingType>, category: string)
    ensures FilterByCategory(types, category) == [] <==> forall t :: t in types ==> !InCategory(t, category)
  {
    if types != [] {
      FilterEmptyIff(types[1..], category);
      assert types == [types[0]] + types[1..];
    }
  }

  // ------------------------------------------------------------- properties

  /** Spellings that lower-case alike select the same entries, in the same order. */
  lemma {:induction false} FilterIgnoresCase(types: seq<TrainingType>, c1: string, c2: string)
    requires Lower(c1) == Lower(c2)
    ensures FilterByCategory(types, c1) == FilterByCategory(types, c2)
  {
    if types != [] {
      FilterIgnoresCase(types[1..], c1, c2);
    }
  }

  /** Filtering twice by the same category changes nothing the second time. */
  lemma {:induction false} FilterIdempotent(types: seq<TrainingType>, category: string)
    ensures FilterByCategory(FilterByCategory(types, category), category) == FilterByCategory(types, category)
  {
    if types != [] {
      FilterIdempotent(types[1..], category);
    }
  }

  /** Every entry of the catalogue is an Azure, Python or General course. */
  lemma CatalogueCategoriesAre(t: TrainingType)
    requires t in Catalogue
    ensures t.category == "Azure" || t.category == "Python" || t.category == "General"
  {
  }

  /** Every category of the catalogue lower-cases to "azure", "python" or "general". */
  lemma CategoryLowered(t: TrainingType)
    requires t in Catalogue
    ensures || (t.category == "Azure" && Lower(t.category) == "azure")
            || (t.category == "Python" && Lower(t.category) == "python")
            || (t.category == "General" && Lower(t.category) == "general")
  {
    CatalogueCategoriesAre(t);
    if t.category == "Azure" {
      LowerIs("Azure", "azure");
    } else if t.category == "Python" {
      LowerIs("Python", "python");
    } else {
      LowerIs("General", "general");
    }
  }

  /** A catalogue entry is in category "AZURE" exactly when its category is "Azure". */
  lemma AzureCategory(t: TrainingType)
    requires t in Catalogue
    ensures InCategory(t, "AZURE") <==> t.category == "Azure"
  {
    LowerIs("AZURE", "azure");
    CategoryLowered(t);
  }

  /** `?category=AZURE` selects exactly the Azure courses. */
  lemma AzureInCapitals()
    ensures forall t :: t in ListTrainingTypes(Some("AZURE")) <==> t in Catalogue && t.category == "Azure"
  {
    var r := FilterByCategory(Catalogue, "AZURE");
    assert ListTrainingTypes(Some("AZURE")) == r;
    FilterKeepsCategory(Catalogue, "AZURE");
    forall t | t in Catalogue ensures InCategory(t, "AZURE") <==> t.category == "Azure" {
      AzureCategory(t);
    }
  }

  /** `?category=java` names no category of the catalogue, so nothing is returned. */
  lemma UnknownCategoryIsEmpty()
    ensures ListTrainingTypes(Some("java")) == []
  {
    LowerIs("java", "java");
    forall t | t in Catalogue ensures !InCategory(t, "java") {
      CategoryLowered(t);
    }
    FilterEmptyIff(Catalogue, "java");
  }

  /** An empty `?category=` is falsy and returns the whole catalogue, as no parameter does. */
  lemma EmptyCategoryListsAll()
    ensures ListTrainingTypes(Some("")) == ListTrainingTypes(None) == Catalogue
    ensures |Catalogue| == 8
  {
  }
}
