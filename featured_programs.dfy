/** The home page's featured strip (src/components/home/FeaturedPrograms.tsx). */
module FeaturedPrograms {

  import opened Wrappers
  import Catalog

  /** `programs ? programs.slice(0, 4) : []`: the first four programs. */
  function Featured(programs: Option<seq<Catalog.Program>>): (r: seq<Catalog.Program>)
    ensures programs.None? ==> r == []
    ensures programs.Some? ==> r <= programs.value
    ensures programs.Some? ==> |r| == if |programs.value| < 4 then |programs.value| else 4
  {
    match programs
    case None => []
    case Some(ps) => if |ps| < 4 then ps else ps[..4]
  }
}
