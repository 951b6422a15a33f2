/** The entities shared by the edge function and the client: the four
    categories, a place as returned by the places search, and a comedy event. */
module Domain {
  import opened Wrappers

  /** The closed set of categories (`ComedyCategory` in src/types.ts, the
      `CATEGORIES` list of the edge function). */
  datatype Category = ComedyWorkshop | ComedyPodcasts | StandUpComedyClub | ImprovComedyLeaders

  /** The fixed order in which categories are classified and displayed. */
  const Categories: seq<Category> :=
    [ComedyWorkshop, ComedyPodcasts, StandUpComedyClub, ImprovComedyLeaders]

  /** The string literal that stands for a category in JSON and on screen. */
  function Label(c: Category): string {
    match c
    case ComedyWorkshop => "Comedy Workshop"
    case ComedyPodcasts => "Comedy Podcasts"
    case StandUpComedyClub => "Stand-Up Comedy Club"
    case ImprovComedyLeaders => "Improv Comedy Leaders"
  }

  /** The position of a category in `Categories`. */
  function Rank(c: Category): (r: nat)
    ensures r < |Categories| && Categories[r] == c
  {
    match c
    case ComedyWorkshop => 0
    case ComedyPodcasts => 1
    case StandUpComedyClub => 2
    case ImprovComedyLeaders => 3
  }

  /** Distinct categories have distinct labels, so comparing labels (as the
      client's `e.category === category` does) is comparing categories. */
  lemma LabelInjective(c: Category, d: Category)
    ensures Label(c) == Label(d) <==> c == d
  {
  }

  /** A JSON value as seen by a JavaScript truthiness test. `NaN` is not modelled. */
  datatype JsValue = Undefined | Null | Bool(b: bool) | Num(n: real) | Str(s: string) | Object

  /** JavaScript truthiness: `undefined`, `null`, `false`, `0` and `""` are falsy. */
  predicate Truthy(v: JsValue) {
    match v
    case Undefined => false
    case Null => false
    case Bool(b) => b
    case Num(n) => n != 0.0
    case Str(s) => s != ""
    case Object => true
  }

  /** A result of the places nearby search, reduced to the fields the edge
      function reads (`geometry.location` becomes `lat`/`lng`). */
  datatype Place = Place(
    placeId: string,
    name: string,
    vicinity: Option<string>,
    rating: Option<real>,
    userRatingsTotal: Option<int>,
    lat: real,
    lng: real)

  /** A comedy event as returned by the edge function and shown by the client. */
  datatype Event = Event(
    category: Category,
    venueName: string,
    eventTitle: string,
    distance: real,
    aiReasoning: string,
    placeId: Option<string>,
    address: Option<string>,
    rating: Option<real>,
    userRatingsTotal: Option<int>,
    latitude: Option<real>,
    longitude: Option<real>)

  /** `events.find(e => e.category === c)`: the first event of category `c`. */
  function FirstOfCategory(events: seq<Event>, c: Category): (r: Option<Event>)
    ensures r.None? <==> forall i :: 0 <= i < |events| ==> events[i].category != c
    ensures r.Some? ==> exists i :: 0 <= i < |events| && events[i] == r.value
                         && events[i].category == c
                         && forall j :: 0 <= j < i ==> events[j].category != c
  {
    if |events| == 0 then None
    else if events[0].category == c then Some(events[0])
    else
      var r := FirstOfCategory(events[1..], c);
      if r.Some? then
        var i :| 0 <= i < |events[1..]| && events[1..][i] == r.value
                 && events[1..][i].category == c
                 && forall j :: 0 <= j < i ==> events[1..][j].category != c;
        assert events[i + 1] == r.value;
        assert forall j :: 0 <= j < i + 1 ==> events[j].category != c by {
          forall j | 0 <= j < i + 1 ensures events[j].category != c {
            if j > 0 { assert events[j] == events[1..][j - 1]; }
          }
        }
        r
      else
        assert forall i :: 0 <= i < |events| ==> events[i].category != c by {
          forall i | 0 <= i < |events| ensures events[i].category != c {
            if i > 0 { assert events[i] == events[1..][i - 1]; }
          }
        }
        r
  }
}
