/** The home page's category grid (src/components/home/Categories.tsx):
    one card per category from the listing, with its icon, colour and the
    number of programs filed under it. */
module Categories {

  import opened Wrappers
  import Seqs
  import Catalog

  datatype Icon = Database | TrendingUp | Code | Palette | Megaphone

  /** The icon table keyed by category name. */
  const CategoryIcons: map<string, Icon> := map[
    "Data Science & AI" := Database,
    "Business & Management" := TrendingUp,
    "Technology" := Code,
    "Design" := Palette,
    "Marketing" := Megaphone]

  /** The colour table keyed by category name. */
  const CategoryColors: map<string, string> := map[
    "Data Science & AI" := "bg-blue-500/10 text-blue-600 group-hover:bg-blue-500",
    "Business & Management" := "bg-emerald-500/10 text-emerald-600 group-hover:bg-emerald-500",
    "Technology" := "bg-purple-500/10 text-purple-600 group-hover:bg-purple-500",
    "Design" := "bg-pink-500/10 text-pink-600 group-hover:bg-pink-500",
    "Marketing" := "bg-orange-500/10 text-orange-600 group-hover:bg-orange-500"]

  /** A known category gets its own icon; any other falls back to Database. */
  function IconFor(category: string): (r: Icon)
    ensures category in CategoryIcons ==> r == CategoryIcons[category]
    ensures category !in CategoryIcons ==> r == Database
  {
    if category in CategoryIcons then CategoryIcons[category] else Database
  }

  /** The colour class has no fallback: an unknown category has none. */
  function ColorFor(category: string): (r: Option<string>)
    ensures r.Some? <==> category in CategoryColors
    ensures r.Some? ==> r.value == CategoryColors[category]
  {
    if category in CategoryColors then Some(CategoryColors[category]) else None
  }

  predicate InCategory(category: string, p: Catalog.Program) {
    p.category == category
  }

  predicate NotInCategory(category: string, p: Catalog.Program) {
    p.category != category
  }

  /** The programs whose category is exactly `category`. */
  function ProgramsIn(programs: seq<Catalog.Program>, category: string): (r: seq<Catalog.Program>)
    ensures forall p :: p in r <==> p in programs && p.category == category
  {
    Seqs.Filter(programs, (p: Catalog.Program) => InCategory(category, p))
  }

  function ProgramCount(programs: seq<Catalog.Program>, category: string): (n: nat)
    ensures n <= |programs|
    ensures n == 0 <==> forall p :: p in programs ==> p.category != category
  {
    var r := ProgramsIn(programs, category);
    assert (r == []) == (forall p :: p in programs ==> p.category != category) by {
      if r != [] { assert r[0] in r; }
    }
    |r|
  }

  /** Counts split over concatenated listings. */
  lemma {:induction false} ProgramCountAppend(a: seq<Catalog.Program>, b: seq<Catalog.Program>, category: string)
    ensures ProgramCount(a + b, category) == ProgramCount(a, category) + ProgramCount(b, category)
  {
    Seqs.FilterAppend(a, b, (p: Catalog.Program) => InCategory(category, p));
  }

  /** A program counts under its own category and under no other, so the
      cards of distinct categories never count more programs than exist. */
  lemma {:induction false} TwoCategoriesDoNotOverlap(programs: seq<Catalog.Program>, c1: string, c2: string)
    requires c1 != c2
    ensures ProgramCount(programs, c1) + ProgramCount(programs, c2) <= |programs|
  {
    Seqs.FilterPartition(programs, (p: Catalog.Program) => InCategory(c1, p), (p: Catalog.Program) => NotInCategory(c1, p));
    Seqs.FilterFilter(programs, (p: Catalog.Program) => NotInCategory(c1, p), (p: Catalog.Program) => InCategory(c2, p),
      (p: Catalog.Program) => InCategory(c2, p));
    var rest := Seqs.Filter(programs, (p: Catalog.Program) => NotInCategory(c1, p));
    assert |Seqs.Filter(rest, (p: Catalog.Program) => InCategory(c2, p))| <= |rest|;
  }

  /** A single program counts 1 under exactly its own category, matched
      with case, and 0 under any other; with `ProgramCountAppend` this fixes
      every count. */
  lemma ProgramCountSingle(p: Catalog.Program, category: string)
    ensures ProgramCount([p], category) == if p.category == category then 1 else 0
  {
    assert [p][1..] == [];
  }

  /** The word after the count on a card: `Program`, with an `s` unless
      the count is 1. */
  function ProgramNoun(n: nat): (r: string)
    ensures r == "Program" || r == "Programs"
  {
    "Program" + (if n != 1 then "s" else "")
  }

  /** The caption is singular exactly when the count is one. */
  lemma ProgramNounSingular(n: nat)
    ensures ProgramNoun(n) == "Program" <==> n == 1
    ensures n != 1 ==> ProgramNoun(n) == "Programs"
  {
    if n != 1 {
      assert |ProgramNoun(n)| == 8;
    }
  }
}
