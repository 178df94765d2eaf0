/**
 * The project catalog of the portfolio and the two views derived from it:
 * the list filtered by a technology tag and the list of distinct tags that
 * feeds the filter's drop-down.
 */
module Catalog {
  import opened Wrappers
  import opened Sequences

  /** One entry of the gallery. `github`, `demo` and `uml` are optional fields. */
  datatype Project = Project(
    id: int,
    title: string,
    description: string,
    longDescription: string,
    technologies: seq<string>,
    github: Option<string>,
    demo: Option<string>,
    image: string,
    uml: Option<string>)

  /** The filter value that selects the whole catalog. */
  const AllTag: string := "Tous"

  const BookShop := Project(1, "Gestion de bibliothèque en ligne",
    "Plateforme développée en PHP procédural avec architecture MVC.",
    "Gestion totale de bibliothèque en ligne qui permet de faire des achat de livre en ligne",
    ["PHP", "Bootstrap", "MySQL", "Javascript"],
    Some("https://github.com/adekomen/book-shop.git"),
    Some("http://lesaint.alwaysdata.net"),
    "/assets/bookly.png", None)

  const FoodApp := Project(2, "Une application pour la restauration",
    "Plateforme de restauration où on peut trouver les mets du restaurant et faire une commande.",
    "Plateforme utilisant Angular.",
    ["Angular", "Html & CSS", "Javascript"],
    Some("https://github.com/adekomen/kenfood_app.git"),
    Some("https://warm-sable-eaf70d.netlify.app/"),
    "/assets/foodapp.png", None)

  const HabitTracker := Project(3, "Une application de suivis d'habitude",
    "Une application Flutter pour suivre vos habitudes quotidiennes.",
    "Une application Flutter pour suivre vos habitudes quotidiennes et bien planifier sa journée.",
    ["Flutter", "Dart"],
    Some("https://github.com/adekomen/habit-tracker-app.git"),
    None,
    "/assets/flutterapp.jpg", None)

  const HotelBooking := Project(4, "Une application pour trouver les hotels",
    "Une application React et Nodejs pour chercher les hotels, fait avec mon equipe de dev.",
    "Une application Fullstack fait avec React pour le Frontend, Nodejs pour le backend et MySQL pour la base de données pour gérer les recherche d'hotel en ligne.",
    ["React", "Nodejs", "MySQL"],
    Some("https://github.com/adekomen/hotel_booking.git"),
    Some("https://hotelbooking-psi.vercel.app/"),
    "/assets/hotel.png", None)

  const Sizer := Project(5, "Une application de prise de mesure",
    "SIZER, Une solution digitale innovante pour simplifier la prise de mesures et optimiser le travail dans le domaine de la couture",
    "Cette solution permet aux couturiers d’enregistrer, consulter, modifier et exporter facilement les mensurations des clients, tout en intégrant des tailles standards et un système de suggestion intelligent.",
    ["Flutter", "Dart", "Firebase", "Supabase"],
    Some("https://github.com/adekomen/sizer_app.git"),
    None,
    "/assets/couturier1.png", None)

  /** The static catalog, in display order; the identifiers are 1 to 5 in that order. */
  function Projects(): (r: seq<Project>)
    ensures |r| == 5
    ensures forall i :: 0 <= i < |r| ==> r[i].id == i + 1
  {
    [BookShop, FoodApp, HabitTracker, HotelBooking, Sizer]
  }

  // ---------------------------------------------------------------------
  // Filtering by technology
  // ---------------------------------------------------------------------

  /** The records whose technologies contain `tag`, in catalog order (the array `filter` with `includes`). */
  function FilterByTag(catalog: seq<Project>, tag: string): (r: seq<Project>)
    ensures |r| <= |catalog|
    ensures forall p :: p in r <==> p in catalog && tag in p.technologies
  {
    if catalog == [] then []
    else
      var last := catalog[|catalog| - 1];
      FilterByTag(catalog[..|catalog| - 1], tag) + (if tag in last.technologies then [last] else [])
  }

  /** The list the gallery shows for the current filter. */
  function Filtered(catalog: seq<Project>, filter: string): (r: seq<Project>)
    ensures filter == AllTag ==> r == catalog
    ensures filter != AllTag ==> forall p :: p in r <==> p in catalog && filter in p.technologies
  {
    if filter == AllTag then catalog else FilterByTag(catalog, filter)
  }

  /** The positions of `catalog` whose record carries `tag`, in increasing order. */
  ghost function Positions(catalog: seq<Project>, tag: string): (idx: seq<nat>)
    ensures forall k :: 0 <= k < |idx| ==> idx[k] < |catalog|
  {
    if catalog == [] then []
    else
      var n := |catalog| - 1;
      Positions(catalog[..n], tag) + (if tag in catalog[n].technologies then [n] else [])
  }

  /** Filtering yields the catalog's records at `Positions`, one for one. */
  lemma {:induction false} FilterByTagAtPositions(catalog: seq<Project>, tag: string)
    ensures |Positions(catalog, tag)| == |FilterByTag(catalog, tag)|
    ensures forall k :: 0 <= k < |Positions(catalog, tag)| ==>
      FilterByTag(catalog, tag)[k] == catalog[Positions(catalog, tag)[k]]
  {
    if catalog != [] {
      var n := |catalog| - 1;
      var front := catalog[..n];
      FilterByTagAtPositions(front, tag);
      var prev, kept := Positions(front, tag), FilterByTag(front, tag);
      forall k | 0 <= k < |prev|
        ensures FilterByTag(catalog, tag)[k] == catalog[Positions(catalog, tag)[k]]
      {
        assert FilterByTag(catalog, tag)[k] == kept[k];
        assert Positions(catalog, tag)[k] == prev[k];
        assert front[prev[k]] == catalog[prev[k]];
      }
    }
  }

  /** `Positions` is strictly increasing: filtering keeps catalog order. */
  lemma {:induction false} PositionsIncrease(catalog: seq<Project>, tag: string)
    ensures forall a, b :: 0 <= a < b < |Positions(catalog, tag)| ==> Positions(catalog, tag)[a] < Positions(catalog, tag)[b]
  {
    if catalog != [] {
      var n := |catalog| - 1;
      PositionsIncrease(catalog[..n], tag);
    }
  }

  /** A position is in `Positions` exactly when its record carries the tag. */
  lemma {:induction false} PositionsAreTheTaggedOnes(catalog: seq<Project>, tag: string)
    ensures forall i :: 0 <= i < |catalog| ==> (i in Positions(catalog, tag) <==> tag in catalog[i].technologies)
  {
    if catalog != [] {
      var n := |catalog| - 1;
      var front := catalog[..n];
      PositionsAreTheTaggedOnes(front, tag);
      forall i | 0 <= i < |catalog|
        ensures i in Positions(catalog, tag) <==> tag in catalog[i].technologies
      {
        if i < n {
          assert front[i] == catalog[i];
        }
      }
    }
  }

  /** Example: filtering the catalog by "Flutter" keeps the two Flutter apps, habit tracker first. */
  lemma FlutterExample()
    ensures Filtered(Projects(), "Flutter") == [HabitTracker, Sizer]
    ensures Filtered(Projects(), "Flutter")[0].title == "Une application de suivis d'habitude"
    ensures Filtered(Projects(), "Flutter")[1].title == "Une application de prise de mesure"
  {
    var t := "Flutter";
    var c1, c2, c3, c4 := [BookShop], [BookShop, FoodApp], [BookShop, FoodApp, HabitTracker],
      [BookShop, FoodApp, HabitTracker, HotelBooking];
    assert c1[..0] == [] && c2[..1] == c1 && c3[..2] == c2 && c4[..3] == c3 && Projects()[..4] == c4;
    assert t !in BookShop.technologies && t !in FoodApp.technologies && t !in HotelBooking.technologies;
    assert t in HabitTracker.technologies && t in Sizer.technologies;
    assert FilterByTag(c2, t) == [];
    assert FilterByTag(c3, t) == [HabitTracker];
    assert FilterByTag(c4, t) == [HabitTracker];
  }

  // ---------------------------------------------------------------------
  // Distinct technologies
  // ---------------------------------------------------------------------

  /** All tags of all records, record by record (the array `flatMap`). */
  function Flatten(catalog: seq<Project>): (r: seq<string>)
    ensures forall t :: t in r <==> exists i :: 0 <= i < |catalog| && t in catalog[i].technologies
  {
    if catalog == [] then []
    else
      var n := |catalog| - 1;
      var front := Flatten(catalog[..n]);
      assert forall i :: 0 <= i < n ==> catalog[..n][i] == catalog[i];
      front + catalog[n].technologies
  }

  /**
   * The elements of `s` in the order a JavaScript `Set` built from `s` keeps
   * them: each value is inserted when first met, later copies are ignored.
   */
  function Dedup(s: seq<string>): (r: seq<string>)
    ensures forall x :: x in r <==> x in s
    ensures NoDuplicates(r)
  {
    if s == [] then []
    else
      var d := Dedup(s[..|s| - 1]);
      var x := s[|s| - 1];
      assert forall y :: y in s <==> y in s[..|s| - 1] || y == x;
      if x in d then d else d + [x]
  }

  /** The deduplicated list is ordered by first occurrence in the input. */
  lemma {:induction false} DedupKeepsFirstOccurrenceOrder(s: seq<string>)
    ensures forall i, j :: 0 <= i < j < |Dedup(s)| ==> FirstIndex(s, Dedup(s)[i]) < FirstIndex(s, Dedup(s)[j])
  {
    if s != [] {
      var front, x := s[..|s| - 1], s[|s| - 1];
      assert s == front + [x];
      DedupKeepsFirstOccurrenceOrder(front);
      var d := Dedup(front);
      forall k | 0 <= k < |d|
        ensures FirstIndex(s, d[k]) == FirstIndex(front, d[k]) < |front|
      {
        FirstIndexOfPrefix(front, x, d[k]);
      }
      if x !in d {
        assert x !in front;
        assert FirstIndex(s, x) == |front|;
      }
    }
  }

  /** The tags offered by the filter drop-down. */
  function UniqueTechnologies(catalog: seq<Project>): (r: seq<string>)
    ensures NoDuplicates(r)
    ensures forall t :: t in r <==> exists i :: 0 <= i < |catalog| && t in catalog[i].technologies
  {
    Dedup(Flatten(catalog))
  }

  /** Every tag occurs once, ordered by its first occurrence across the catalog. */
  lemma UniqueTechnologiesOrder(catalog: seq<Project>)
    ensures forall i, j :: 0 <= i < j < |UniqueTechnologies(catalog)| ==>
      FirstIndex(Flatten(catalog), UniqueTechnologies(catalog)[i]) < FirstIndex(Flatten(catalog), UniqueTechnologies(catalog)[j])
  {
    DedupKeepsFirstOccurrenceOrder(Flatten(catalog));
  }
}
