/**
 The catalog the page ships with and its colour table, together with facts
 about the views computed from them.
 */
module SampleCatalog {
  import opened Seqs
  import opened Tools
  import opened Views
  import opened CategoryCounts

  const Image: string := "/placeholder.svg?height=200&width=200"
  const Link: string := "https://www.shivacruz.com"

  const TensorFlow: Tool := Tool(1, "TensorFlow", "Machine Learning", "Open-source machine learning framework", Image, true, 95, Link)
  const PyTorch: Tool := Tool(2, "PyTorch", "Machine Learning", "Open source machine learning library", Image, true, 90, Link)
  const Nltk: Tool := Tool(3, "NLTK", "Natural Language Processing", "Leading platform for building Python programs to work with human language data", Image, false, 80, Link)
  const OpenCv: Tool := Tool(4, "OpenCV", "Computer Vision", "Open source computer vision and machine learning software library", Image, true, 85, Link)
  const Ros: Tool := Tool(5, "ROS", "Robotics", "Flexible framework for writing robot software", Image, false, 75, Link)
  const Pandas: Tool := Tool(6, "Pandas", "Data Analysis", "Fast, powerful, flexible and easy to use open source data analysis and manipulation tool", Image, false, 88, Link)
  const DeepSpeech: Tool := Tool(7, "DeepSpeech", "Speech Recognition", "Open-source Speech-To-Text engine", Image, false, 70, Link)
  const ScikitLearn: Tool := Tool(8, "Scikit-learn", "Machine Learning", "Machine learning library for Python", Image, true, 92, Link)

  /** The `tools` array, in source order. */
  const Catalog: seq<Tool> := [TensorFlow, PyTorch, Nltk, OpenCv, Ros, Pandas, DeepSpeech, ScikitLearn]

  /** The `categoryColors` object: badge classes per category. */
  const CategoryColors: map<string, string> := map[
    "Machine Learning" := "bg-blue-100 text-blue-800",
    "Natural Language Processing" := "bg-green-100 text-green-800",
    "Computer Vision" := "bg-purple-100 text-purple-800",
    "Robotics" := "bg-red-100 text-red-800",
    "Data Analysis" := "bg-yellow-100 text-yellow-800",
    "Speech Recognition" := "bg-pink-100 text-pink-800"
  ]

  /** The catalog's ids are 1 to 8, so no two tools share one. */
  lemma CatalogIdsUnique()
    ensures UniqueIds(Catalog)
    ensures forall i :: 0 <= i < |Catalog| ==> Catalog[i].id == i + 1
  {
  }

  lemma CatalogPopularityInRange()
    ensures PopularityInRange(Catalog)
  {
  }

  /** Every catalog category has a colour. */
  lemma CatalogCategoriesColoured()
    ensures forall i :: 0 <= i < |Catalog| ==> Catalog[i].category in CategoryColors
  {
  }

  /** Every badge of the grid, whatever the query, and of the featured row finds its category in the colour table. */
  lemma ListedBadgesColoured(q: QueryState)
    ensures forall t :: t in FilteredTools(Catalog, q) ==> t.category in CategoryColors
    ensures forall t :: t in FeaturedTools(Catalog) ==> t.category in CategoryColors
  {
    CatalogCategoriesColoured();
  }

  /** Four tools are featured: TensorFlow, PyTorch, OpenCV and Scikit-learn. */
  lemma CatalogFeaturedCount()
    ensures |FeaturedTools(Catalog)| == 4
  {
    var s, p := Catalog, IsFeatured;
    assert |Filter(s[8..], p)| == 0;
    FilterSuffix(s, p, 7);
    FilterSuffix(s, p, 6);
    FilterSuffix(s, p, 5);
    FilterSuffix(s, p, 4);
    FilterSuffix(s, p, 3);
    FilterSuffix(s, p, 2);
    FilterSuffix(s, p, 1);
    FilterSuffix(s, p, 0);
  }

  /** The number of catalog tools in category `c`, term by term. */
  lemma CatalogCountOf(c: string)
    ensures CountOf(Catalog, c) ==
      3 * (if c == "Machine Learning" then 1 else 0) +
      (if c == "Natural Language Processing" then 1 else 0) + (if c == "Computer Vision" then 1 else 0) +
      (if c == "Robotics" then 1 else 0) + (if c == "Data Analysis" then 1 else 0) +
      (if c == "Speech Recognition" then 1 else 0)
  {
    var s := Catalog;
    assert CountOf(s[8..], c) == 0;
    CountOfSuffix(s, 7, c);
    CountOfSuffix(s, 6, c);
    CountOfSuffix(s, 5, c);
    CountOfSuffix(s, 4, c);
    CountOfSuffix(s, 3, c);
    CountOfSuffix(s, 2, c);
    CountOfSuffix(s, 1, c);
    CountOfSuffix(s, 0, c);
  }

  /** "Machine Learning", with three tools, heads the sidebar list; every other category has one. */
  lemma CatalogCategoriesHead()
    ensures |Categories(Catalog)| > 0
    ensures Categories(Catalog)[0] == CategoryCount("Machine Learning", 3)
  {
    var r := Categories(Catalog);
    CategoriesCounts(Catalog);
    CategoriesKeys(Catalog);
    CatalogCountOf("Machine Learning");
    assert HasKey(r, "Machine Learning");
    var m :| 0 <= m < |r| && r[m].category == "Machine Learning";
    assert r[0].count >= r[m].count == 3;
    CatalogCountOf(r[0].category);
  }

  /** The "All" button's badge, `tools.length`, equals the sum of the per-category badges: 8. */
  lemma CatalogAllBadge()
    ensures Total(Categories(Catalog)) == |Catalog| == 8
  {
    CategoriesTotal(Catalog);
  }
}
