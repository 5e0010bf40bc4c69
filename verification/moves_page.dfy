/**
 * The stock moves page: how the form's values become the body posted to
 * /api/moves, the location options offered for selection, and the colour of
 * each move type's tag.
 */
module MovesPage {
  import opened Wrappers
  import opened Json
  import opened Entities
  import opened Validations
  import MovesRoute

  const CurrentUser := "Current User"

  /** A submitted form: one move, or the list of moves of the multiple-moves mode. */
  datatype Form = Single(values: map<string, Value>) | Multiple(moves: seq<map<string, Value>>)

  /**
   * One move of the form, as posted: a copy with `userName` stamped; a typed
   * (string) location becomes `locationName` and drops `locationId`, any other
   * location becomes `locationId` and drops `locationName`. A location left
   * undefined is dropped by `JSON.stringify`, so neither key is sent.
   */
  function ProcessMove(values: map<string, Value>): (r: map<string, Value>)
    ensures "userName" in r && r["userName"] == Str(CurrentUser)
    ensures "location" in values && values["location"].Str? ==>
              "locationName" in r && r["locationName"] == values["location"] && "locationId" !in r
    ensures "location" in values && !values["location"].Str? ==>
              "locationId" in r && r["locationId"] == values["location"] && "locationName" !in r
    ensures "location" !in values ==> "locationId" !in r && "locationName" !in r
    ensures forall k :: k in values && k != "userName" && k != "locationName" && k != "locationId" ==>
              k in r && r[k] == values[k]
    ensures forall k :: k in r ==> k in values || k == "userName" || k == "locationName" || k == "locationId"
  {
    var processed := values["userName" := Str(CurrentUser)];
    if "location" in values && values["location"].Str? then
      processed["locationName" := values["location"]] - {"locationId"}
    else if "location" in values then
      processed["locationId" := values["location"]] - {"locationName"}
    else
      processed - {"locationId", "locationName"}
  }

  /** What `handleSubmit` posts: the single move, or `{ moves: [...] }` in multiple mode. */
  function HandleSubmit(form: Form): (r: Value)
    ensures r.Obj?
    ensures form.Single? ==> "userName" in r.fields && r.fields["userName"] == Str(CurrentUser)
    ensures form.Multiple? ==> r.fields.Keys == {"moves"} && r.fields["moves"].Arr?
                               && |r.fields["moves"].elems| == |form.moves|
  {
    match form
    case Single(values) => Obj(ProcessMove(values))
    case Multiple(moves) =>
      Obj(map["moves" := Arr(seq(|moves|, i requires 0 <= i < |moves| => Obj(ProcessMove(moves[i]))))])
  }

  /** With the form's required location given, exactly one of locationId and locationName is sent. */
  lemma ExactlyOneLocationKey(values: map<string, Value>)
    requires "location" in values
    ensures var sent := HandleSubmit(Single(values)).fields;
            ("locationId" in sent) != ("locationName" in sent)
  {
  }

  /** Multiple mode maps the moves one to one, keeping their count and order. */
  lemma MultipleKeepsOrder(moves: seq<map<string, Value>>)
    ensures var body := HandleSubmit(Multiple(moves));
            && body.fields.Keys == {"moves"}
            && |body.fields["moves"].elems| == |moves|
            && forall i :: 0 <= i < |moves| ==> body.fields["moves"].elems[i] == Obj(ProcessMove(moves[i]))
  {
  }

  /**
   * A move with a typed location carries no locationId, so `CreateMoveSchema`
   * rejects it and POST /api/moves answers 500 without storing anything.
   */
  lemma TypedLocationRejected(values: map<string, Value>)
    requires "location" in values && values["location"].Str?
    ensures MovesRoute.ParseBody(Parsed(HandleSubmit(Single(values)))) == None
  {
    assert "locationId" !in HandleSubmit(Single(values)).fields;
  }

  /**
   * The multiple-moves body has none of the schema's top-level fields, so
   * POST /api/moves answers 500 without storing anything.
   */
  lemma BatchRejected(moves: seq<map<string, Value>>)
    ensures MovesRoute.ParseBody(Parsed(HandleSubmit(Multiple(moves)))) == None
  {
    assert "itemId" !in HandleSubmit(Multiple(moves)).fields;
  }

  /** A location value that is not a string and that the schema accepts arrives as the move's locationId, signed by the current user. */
  lemma SelectedLocationAccepted(values: map<string, Value>)
    requires "location" in values && !values["location"].Str?
    requires ParseMove(HandleSubmit(Single(values))).Some?
    ensures var m := ParseMove(HandleSubmit(Single(values))).value;
            values["location"] == Num(m.locationId as real) && m.userName == Some(CurrentUser)
  {
  }

  /** One option of the location selector (`labelText` is its `label`). */
  datatype LocationOption = LocationOption(value: string, labelText: string, id: int)

  function GetLocationOptions(locations: Option<seq<Location>>): (r: seq<LocationOption>)
    ensures locations.None? ==> r == []
    ensures locations.Some? ==> |r| == |locations.value|
    ensures locations.Some? ==> forall i :: 0 <= i < |r| ==>
              r[i].value == r[i].labelText == locations.value[i].name && r[i].id == locations.value[i].id
  {
    match locations
    case None => []
    case Some(locs) =>
      seq(|locs|, i requires 0 <= i < |locs| => LocationOption(locs[i].name, locs[i].name, locs[i].id))
  }

  /** The tag colour of a move type; anything else gets "default". */
  function GetTypeColor(moveType: string): (c: string)
    ensures c == "green" <==> moveType == "IN"
    ensures c == "red" <==> moveType == "OUT"
    ensures c == "orange" <==> moveType == "ADJUST"
    ensures c == "default" <==> MoveTypeOf(moveType).None?
  {
    if moveType == "IN" then "green"
    else if moveType == "OUT" then "red"
    else if moveType == "ADJUST" then "orange"
    else "default"
  }

  /** IN is green, OUT red and ADJUST orange: three different colours, none of them the fallback. */
  lemma TypeColors(a: MoveType, b: MoveType)
    ensures GetTypeColor(MoveTypeName(IN)) == "green"
    ensures GetTypeColor(MoveTypeName(OUT)) == "red"
    ensures GetTypeColor(MoveTypeName(ADJUST)) == "orange"
    ensures GetTypeColor(MoveTypeName(a)) != "default"
    ensures a != b ==> GetTypeColor(MoveTypeName(a)) != GetTypeColor(MoveTypeName(b))
  {
  }

  lemma UnknownTypeColor(moveType: string)
    requires MoveTypeOf(moveType).None?
    ensures GetTypeColor(moveType) == "default"
  {
  }

  // ---------------------------------------------------------------------------
  // Choosing a location from the selector

  /**
   * Picking an option puts the option's value, the location's name, into the
   * form, so a chosen location is a string too and the move is rejected.
   */
  lemma SelectedOptionRejected(locations: seq<Location>, i: nat, values: map<string, Value>)
    requires i < |locations|
    requires "location" in values && values["location"] == Str(GetLocationOptions(Some(locations))[i].value)
    ensures MovesRoute.ParseBody(Parsed(HandleSubmit(Single(values)))) == None
  {
    TypedLocationRejected(values);
  }

  /** The id of the first option whose value is `name`. */
  function OptionIdFor(options: seq<LocationOption>, name: string): (r: Option<int>)
    ensures r.Some? <==> exists i :: 0 <= i < |options| && options[i].value == name
    ensures r.Some? ==> exists i :: 0 <= i < |options| && options[i].value == name && options[i].id == r.value
  {
    if options == [] then None
    else if options[0].value == name then Some(options[0].id)
    else
      var r := OptionIdFor(options[1..], name);
      assert forall i :: 0 <= i < |options[1..]| ==> options[1..][i] == options[i + 1];
      r
  }

  /** The corrected client: a location name that one of the options carries is sent as that location's id. */
  function ResolveLocation(values: map<string, Value>, options: seq<LocationOption>): map<string, Value>
  {
    if "location" in values && values["location"].Str? && OptionIdFor(options, values["location"].s).Some? then
      values["location" := Num(OptionIdFor(options, values["location"].s).value as real)]
    else values
  }

  function ProcessMoveResolved(values: map<string, Value>, options: seq<LocationOption>): map<string, Value>
  {
    ProcessMove(ResolveLocation(values, options))
  }

  /**
   * With the corrected client, choosing a stored location (ids from 1, names
   * unique) posts a move that the schema accepts, at that location and signed
   * by the current user.
   */
  lemma SelectedOptionAcceptedWhenResolved(locations: seq<Location>, i: nat, values: map<string, Value>)
    requires i < |locations|
    requires forall j :: 0 <= j < |locations| ==> locations[j].id >= 1
    requires forall j, k :: 0 <= j < k < |locations| ==> locations[j].name != locations[k].name
    requires "location" in values && values["location"] == Str(locations[i].name)
    requires MoveFieldRules(values)
    ensures var m := ParseMove(Obj(ProcessMoveResolved(values, GetLocationOptions(Some(locations)))));
            m.Some? && m.value.locationId == locations[i].id && m.value.userName == Some(CurrentUser)
  {
    var options := GetLocationOptions(Some(locations));
    assert options[i].value == locations[i].name;
    var id := OptionIdFor(options, locations[i].name).value;
    assert id == locations[i].id;
    var resolved := ResolveLocation(values, options);
    assert resolved == values["location" := Num(id as real)];
    LocationIdSentAccepted(resolved, id);
  }

  /** A form whose own fields meet the schema and whose location is a positive id posts an accepted move. */
  lemma LocationIdSentAccepted(values: map<string, Value>, id: int)
    requires id >= 1 && "location" in values && values["location"] == Num(id as real)
    requires MoveFieldRules(values)
    ensures var m := ParseMove(Obj(ProcessMove(values)));
            m.Some? && m.value.locationId == id && m.value.userName == Some(CurrentUser)
  {
    var sent := ProcessMove(values);
    assert Lookup(sent, "locationId") == Some(Num(id as real));
    assert Lookup(sent, "userName") == Some(Str(CurrentUser));
    assert Lookup(sent, "itemId") == Lookup(values, "itemId");
    assert Lookup(sent, "type") == Lookup(values, "type");
    assert Lookup(sent, "qty") == Lookup(values, "qty");
    assert Lookup(sent, "unitCost") == Lookup(values, "unitCost");
    assert Lookup(sent, "sellPrice") == Lookup(values, "sellPrice");
    assert Lookup(sent, "ref") == Lookup(values, "ref");
    assert Lookup(sent, "note") == Lookup(values, "note");
    assert MoveFieldRules(sent);
    assert (id as real).Floor == id;
    assert ValidMove(Obj(sent));
  }
}
