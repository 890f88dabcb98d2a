/**
 * request/state_of_mind.go: a state of mind entry. Its decoder reads "start"
 * and "end" as plain strings, ahead of the like-named fields of the entry
 * itself, decodes every other member into the entry by name, and then parses
 * each non-empty start or end as an RFC 3339 date-time.
 */
module StatesOfMind {
  import opened Wrappers
  import opened Json
  import opened Time
  import opened Rfc3339

  datatype StateOfMind = StateOfMind(
    id: string, valence: real, valenceClassification: string, labels: seq<string>,
    associations: seq<string>, start: Option<Timestamp>, end: Option<Timestamp>, kind: string)

  /** The decoder's temporary struct: the two strings it reads first, and the entry the rest goes into. */
  datatype Temp = Temp(start: string, end: string, entry: StateOfMind)

  /**
   * The fields the temporary struct offers, in Go's order: its own start and
   * end hide the entry's, so "start" and "end" never reach the entry's time fields.
   */
  const TempNames: seq<string> := ["start", "end", "id", "valence", "valenceClassification", "labels", "associations", "kind"]

  function StoreTemp(t: Temp, field: nat, v: Json): Step<Temp> {
    var e := t.entry;
    match field
    case 0 => var d := DecodeString(v, t.start); Continue(t.(start := d.value), d.saved)
    case 1 => var d := DecodeString(v, t.end); Continue(t.(end := d.value), d.saved)
    case 2 => var d := DecodeString(v, e.id); Continue(t.(entry := e.(id := d.value)), d.saved)
    case 3 => var d := DecodeFloat(v, e.valence); Continue(t.(entry := e.(valence := d.value)), d.saved)
    case 4 => var d := DecodeString(v, e.valenceClassification); Continue(t.(entry := e.(valenceClassification := d.value)), d.saved)
    case 5 => var d := DecodeStrings(v, e.labels); Continue(t.(entry := e.(labels := d.value)), d.saved)
    case 6 => var d := DecodeStrings(v, e.associations); Continue(t.(entry := e.(associations := d.value)), d.saved)
    case _ => var d := DecodeString(v, e.kind); Continue(t.(entry := e.(kind := d.value)), d.saved)
  }

  /** The temporary struct after json.Unmarshal, its strings starting empty and its entry the receiver. */
  function DecodeTemp(held: StateOfMind, j: Json): Result<Temp, JsonError> {
    DecodeStruct(j, "struct", TempNames, StoreTemp, Temp("", "", held))
  }

  /** An empty text leaves the field as it was; any other must be an RFC 3339 date-time. */
  function TimeField(text: string, held: Option<Timestamp>): (r: Result<Option<Timestamp>, JsonError>)
    ensures text == "" ==> r == Ok(held)
    ensures text != "" ==> (r.Ok? <==> ParseRfc3339(text).Ok?)
    ensures text != "" && r.Ok? ==> r.value == Some(Timestamp(ParseRfc3339(text).value))
    ensures r.Err? ==> r.error == CustomError(ParseErrorText(ParseError(text)))
  {
    if text == "" then Ok(held)
    else match ParseRfc3339(text)
      case Ok(t) => Ok(Some(Timestamp(t)))
      case Err(e) => Err(CustomError(ParseErrorText(e)))
  }

  /**
   * StateOfMind.UnmarshalJSON: the members are decoded, then start and then
   * end are parsed when non-empty; the first error is the decode's error.
   */
  function DecodeStateOfMind(held: StateOfMind, j: Json): (r: Result<StateOfMind, JsonError>)
    ensures DecodeTemp(held, j).Err? ==> r == Err(DecodeTemp(held, j).error)
    ensures r.Ok? ==> r.value.(start := held.start, end := held.end) == DecodeTemp(held, j).value.entry
  {
    var temp :- DecodeTemp(held, j);
    EntryTimesHidden(held, j);
    var start :- TimeField(temp.start, temp.entry.start);
    var end :- TimeField(temp.end, temp.entry.end);
    Ok(temp.entry.(start := start, end := end))
  }

  /** No member reaches the entry's own start and end: they are hidden behind the temporary strings. */
  lemma EntryTimesHidden(held: StateOfMind, j: Json)
    requires DecodeTemp(held, j).Ok?
    ensures DecodeTemp(held, j).value.entry.start == held.start
    ensures DecodeTemp(held, j).value.entry.end == held.end
  {
    var init := Temp("", "", held);
    FieldKept(j, "struct", TempNames, StoreTemp, init, |TempNames|, (t: Temp) => t.entry.start);
    FieldKept(j, "struct", TempNames, StoreTemp, init, |TempNames|, (t: Temp) => t.entry.end);
  }

  /**
   * The whole outcome: the members' decode error if any; else the start's
   * parse error if start is non-empty and not RFC 3339; else the end's; else
   * the decoded entry with each non-empty start and end replaced by its
   * parsed instant and each empty one left as the receiver had it.
   */
  lemma Outcome(held: StateOfMind, j: Json)
    ensures var temp := DecodeTemp(held, j);
            var r := DecodeStateOfMind(held, j);
            && (temp.Err? ==> r == Err(temp.error))
            && (temp.Ok? && temp.value.start != "" && ParseRfc3339(temp.value.start).Err? ==>
                  r == Err(CustomError(ParseErrorText(ParseError(temp.value.start)))))
            && (temp.Ok? && (temp.value.start == "" || ParseRfc3339(temp.value.start).Ok?)
                  && temp.value.end != "" && ParseRfc3339(temp.value.end).Err? ==>
                  r == Err(CustomError(ParseErrorText(ParseError(temp.value.end)))))
            && (r.Ok? ==>
                  && temp.Ok?
                  && r.value.start == (if temp.value.start == "" then held.start else Some(Timestamp(ParseRfc3339(temp.value.start).value)))
                  && r.value.end == (if temp.value.end == "" then held.end else Some(Timestamp(ParseRfc3339(temp.value.end).value)))
                  && r.value.(start := held.start, end := held.end) == temp.value.entry)
  {
    if DecodeTemp(held, j).Ok? {
      EntryTimesHidden(held, j);
    }
  }

  /** Without a "start" member (in any letter case), start stays as the receiver had it: nil for a new entry. */
  lemma StartAbsent(held: StateOfMind, members: seq<(string, Json)>)
    requires DecodeStateOfMind(held, Object(members)).Ok?
    requires forall k :: 0 <= k < |members| ==> !FoldEq(members[k].0, "start")
    ensures DecodeStateOfMind(held, Object(members)).value.start == held.start
  {
    FieldKept(Object(members), "struct", TempNames, StoreTemp, Temp("", "", held), 0, (t: Temp) => t.start);
    EntryTimesHidden(held, Object(members));
  }

  /** Without an "end" member, end stays as the receiver had it. */
  lemma EndAbsent(held: StateOfMind, members: seq<(string, Json)>)
    requires DecodeStateOfMind(held, Object(members)).Ok?
    requires forall k :: 0 <= k < |members| ==> !FoldEq(members[k].0, "end")
    ensures DecodeStateOfMind(held, Object(members)).value.end == held.end
  {
    FieldKept(Object(members), "struct", TempNames, StoreTemp, Temp("", "", held), 1, (t: Temp) => t.end);
    EntryTimesHidden(held, Object(members));
  }

  /** A start in Timestamp's own space-separated layout fails the decode. */
  lemma SpaceLayoutStartRefused(held: StateOfMind, j: Json)
    requires DecodeTemp(held, j).Ok? && ScanLayout(DecodeTemp(held, j).value.start).Some?
    ensures DecodeStateOfMind(held, j).Err?
  {
    var text := DecodeTemp(held, j).value.start;
    LayoutTextRefused(text);
    assert text != "";
  }
}
