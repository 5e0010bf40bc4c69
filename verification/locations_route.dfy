/**
 * /api/locations: POST validates `{ name }` and inserts the location, then
 * maps whatever was thrown to a status: a zod error to 400 with one detail
 * per issue, a database error code to 409 (duplicate name) or 500, invalid
 * JSON to 400, anything else to 500. GET lists all locations by name.
 */
module LocationsRoute {
  import opened Wrappers
  import opened Json
  import opened Entities
  import opened Ordering
  import opened Store
  import opened Validations

  /** One `{ field, message }` entry of a 400 answer. */
  datatype Detail = Detail(field: string, message: string)

  datatype PostResponse =
    | Created(status: int, location: Location)
    | Failed(status: int, error: string, message: string, details: Option<seq<Detail>>)

  datatype GetResponse = Listed(status: int, locations: seq<Location>) | ListFailed(status: int, error: string)

  /**
   * What the handler's catch block inspects of a thrown value: whether it is
   * a ZodError (and its issues), whether it has a `code` property, and
   * whether it is a SyntaxError.
   */
  datatype Thrown = Thrown(zodIssues: Option<seq<Issue>>, code: Option<string>, syntaxError: bool)

  const DuplicateMessage := "A location with this name already exists"

  /** `parts.join(sep)`. */
  function Join(parts: seq<string>, sep: string): string
  {
    if |parts| == 0 then ""
    else if |parts| == 1 then parts[0]
    else parts[0] + sep + Join(parts[1..], sep)
  }

  function DetailsOf(issues: seq<Issue>): (ds: seq<Detail>)
    ensures |ds| == |issues|
    ensures forall i :: 0 <= i < |issues| ==> ds[i] == Detail(Join(issues[i].path, "."), issues[i].message)
  {
    seq(|issues|, i requires 0 <= i < |issues| => Detail(Join(issues[i].path, "."), issues[i].message))
  }

  /** The `message` of a 400 answer: "field: message" per detail, joined by ", ". */
  function SummaryOf(ds: seq<Detail>): string
  {
    Join(seq(|ds|, i requires 0 <= i < |ds| => ds[i].field + ": " + ds[i].message), ", ")
  }

  /** The catch block: ZodError first, then a `code`, then SyntaxError, then anything else. */
  function Classify(e: Thrown): (r: PostResponse)
    ensures r.Failed?
    ensures r.status == 400 <==> e.zodIssues.Some? || (e.code.None? && e.syntaxError)
    ensures r.status == 409 <==> e.zodIssues.None? && e.code == Some(UniqueViolation)
    ensures r.status == 500 <==>
              e.zodIssues.None? && (e.code.Some? ==> e.code != Some(UniqueViolation)) && (e.code.None? ==> !e.syntaxError)
    ensures r.details.Some? <==> e.zodIssues.Some?
    ensures e.zodIssues.Some? ==>
              r.details == Some(DetailsOf(e.zodIssues.value)) && r.message == SummaryOf(DetailsOf(e.zodIssues.value))
  {
    if e.zodIssues.Some? then
      var ds := DetailsOf(e.zodIssues.value);
      Failed(400, "Validation failed", SummaryOf(ds), Some(ds))
    else if e.code.Some? then
      if e.code.value == UniqueViolation then
        Failed(409, "Duplicate entry", DuplicateMessage, None)
      else
        Failed(500, "Database error", "A database error occurred while creating the location", None)
    else if e.syntaxError then
      Failed(400, "Invalid JSON", "Request body contains invalid JSON", None)
    else
      Failed(500, "Internal server error", "An unexpected error occurred while creating the location", None)
  }

  /** A single issue gives the message "field: message". */
  lemma SingleIssueMessage(issue: Issue)
    ensures Classify(Thrown(Some([issue]), None, false)).message == Join(issue.path, ".") + ": " + issue.message
  {
    var ds := DetailsOf([issue]);
    assert seq(|ds|, i requires 0 <= i < |ds| => ds[i].field + ": " + ds[i].message)
        == [Join(issue.path, ".") + ": " + issue.message];
  }

  /** What a database error looks like to the catch block. */
  function ThrownBy(e: DbError): Thrown
  {
    match e
    case KnownRequest(code) => Thrown(None, Some(code), false)
    case Unknown => Thrown(None, None, false)
  }

  method Post(db: Database, body: Body, injected: Option<DbError>) returns (r: PostResponse)
    requires db.Valid()
    modifies db
    ensures db.Valid()
    ensures body.Malformed? ==>
              r == Failed(400, "Invalid JSON", "Request body contains invalid JSON", None) && unchanged(db)
    ensures body.Parsed? && ParseLocation(body.value).Err? ==>
              r == Classify(Thrown(Some(ParseLocation(body.value).error), None, false)) && unchanged(db)
    ensures body.Parsed? && ParseLocation(body.value).Ok? ==>
              var name := ParseLocation(body.value).value;
              if injected.Some? then
                r == Classify(ThrownBy(injected.value)) && unchanged(db)
              else if name in LocationNames(old(db.locations)) then
                r == Failed(409, "Duplicate entry", DuplicateMessage, None) && unchanged(db)
              else
                && r == Created(201, Location(old(db.nextLocationId), name))
                && db.locations == old(db.locations) + [r.location]
    ensures db.items == old(db.items) && db.moves == old(db.moves)
  {
    if body.Malformed? {
      return Classify(Thrown(None, None, true));
    }
    var parsed := ParseLocation(body.value);
    if parsed.Err? {
      return Classify(Thrown(Some(parsed.error), None, false));
    }
    var created := db.CreateLocation(parsed.value, injected);
    if created.Err? {
      return Classify(ThrownBy(created.error));
    }
    r := Created(201, created.value);
  }

  /** `orderBy: { name: 'asc' }`. */
  predicate NameAscending(a: Location, b: Location)
  {
    LexLe(a.name, b.name)
  }

  lemma NameAscendingIsTotalPreorder()
    ensures TotalPreorder(NameAscending)
  {
    forall a, b ensures NameAscending(a, b) || NameAscending(b, a) {
      LexTotal(a.name, b.name);
    }
    forall a, b, c | NameAscending(a, b) && NameAscending(b, c) ensures NameAscending(a, c) {
      LexTransitive(a.name, b.name, c.name);
    }
  }

  method Get(db: Database, fails: bool) returns (r: GetResponse)
    ensures fails ==> r == ListFailed(500, "Failed to fetch locations")
    ensures !fails ==> r.Listed? && r.status == 200
    ensures r.Listed? ==> multiset(r.locations) == multiset(db.locations)
    ensures r.Listed? ==> forall i, j :: 0 <= i < j < |r.locations| ==> LexLe(r.locations[i].name, r.locations[j].name)
  {
    if fails {
      return ListFailed(500, "Failed to fetch locations");
    }
    NameAscendingIsTotalPreorder();
    r := Listed(200, Sort(db.locations, NameAscending));
  }

  predicate NamesUnique(s: seq<Location>)
  {
    forall i, j :: 0 <= i < j < |s| ==> s[i].name != s[j].name
  }

  predicate NameSorted(s: seq<Location>)
  {
    forall i, j :: 0 <= i < j < |s| ==> LexLe(s[i].name, s[j].name)
  }

  /** Two name-sorted listings of the same unique-named rows start with the same row. */
  lemma SameFirstLocation(a: seq<Location>, b: seq<Location>)
    requires |a| > 0 && |b| > 0
    requires multiset(a) == multiset(b)
    requires NamesUnique(a) && NameSorted(a) && NameSorted(b)
    ensures a[0] == b[0]
  {
    assert a[0] in multiset(b);
    var k :| 0 <= k < |b| && b[k] == a[0];
    assert b[0] in multiset(a);
    var k' :| 0 <= k' < |a| && a[k'] == b[0];
    if k == 0 { LexTotal(b[0].name, a[0].name); }
    if k' == 0 { LexTotal(a[0].name, b[0].name); }
    LexAntisymmetric(a[0].name, b[0].name);
    assert k' == 0;
  }

  lemma TailKeepsOrder(s: seq<Location>)
    requires |s| > 0
    ensures NamesUnique(s) ==> NamesUnique(s[1..])
    ensures NameSorted(s) ==> NameSorted(s[1..])
  {
    forall i, j | 0 <= i < j < |s[1..]| ensures s[1..][i] == s[i + 1] && s[1..][j] == s[j + 1] { }
  }

  lemma TailMultiset(a: seq<Location>, b: seq<Location>)
    requires |a| > 0 && |b| > 0 && a[0] == b[0] && multiset(a) == multiset(b)
    ensures multiset(a[1..]) == multiset(b[1..])
  {
    assert a == [a[0]] + a[1..] && b == [b[0]] + b[1..];
    calc {
      multiset(a[1..]);
      multiset(a) - multiset{a[0]};
      multiset(b) - multiset{b[0]};
      multiset(b[1..]);
    }
  }

  /**
   * Location names are unique, so the name-ordered listing has no ties: any
   * two name-sorted permutations of the table are the same sequence.
   */
  lemma {:induction false} NameOrderedListingUnique(a: seq<Location>, b: seq<Location>)
    requires multiset(a) == multiset(b)
    requires NamesUnique(a) && NameSorted(a) && NameSorted(b)
    ensures a == b
  {
    if a == [] {
      assert |b| == |multiset(b)| == 0;
    } else {
      assert |b| == |multiset(b)| == |multiset(a)| == |a|;
      SameFirstLocation(a, b);
      TailMultiset(a, b);
      TailKeepsOrder(a);
      TailKeepsOrder(b);
      NameOrderedListingUnique(a[1..], b[1..]);
      assert a == [a[0]] + a[1..] && b == [b[0]] + b[1..];
    }
  }
}
