/** The gold report's World Bank lookup: the most recent observation of
    a series, as `_last_value` finds it in the API's two-element answer. */
module GoldWorldBank {
  import opened Wrappers
  import opened JsonValues
  import opened Http

  // ---------------------------------------------------------------- World Bank

  /** A row `{"date": ..., "value": ...}` taken from a World Bank answer. */
  datatype Observation = Observation(date: Json, value: Json)

  /** What `_last_value` ends in: an observation, `None`, or an exception. */
  datatype Lookup = Found(obs: Observation) | NotFound | Raises

  /** A row the loop passes over: falsy, or a dict whose "value" is missing
      or null. */
  predicate Skipped(row: Json) {
    !Truthy(row) || (row.JObj? && GetOr(row.fields, "value", JNull) == JNull)
  }

  /** A row the loop returns: a dict with a non-null "value". */
  predicate Usable(row: Json) {
    row.JObj? && GetOr(row.fields, "value", JNull) != JNull
  }

  function ObservationOf(row: Json): Observation
    requires row.JObj?
  {
    Observation(GetOr(row.fields, "date", JNull), GetOr(row.fields, "value", JNull))
  }

  /** `for row in rows:` over a list; a truthy row that is not a dict has no
      `.get` and raises. */
  function Scan(rows: seq<Json>): Lookup {
    if rows == [] then NotFound
    else if Usable(rows[0]) then Found(ObservationOf(rows[0]))
    else if Skipped(rows[0]) then Scan(rows[1..])
    else Raises
  }

  /** The first row that is not passed over decides the scan: its
      observation when it is usable, an exception when it is not. */
  lemma {:induction false} ScanFirstDecisive(rows: seq<Json>, i: nat)
    requires i < |rows| && !Skipped(rows[i])
    requires forall j :: 0 <= j < i ==> Skipped(rows[j])
    ensures Scan(rows) == if Usable(rows[i]) then Found(ObservationOf(rows[i])) else Raises
  {
    if i > 0 {
      assert Skipped(rows[0]);
      assert rows[1..][i - 1] == rows[i];
      ScanFirstDecisive(rows[1..], i - 1);
    }
  }

  /** With every row passed over, the scan finds nothing. */
  lemma {:induction false} ScanAllSkipped(rows: seq<Json>)
    requires forall j :: 0 <= j < |rows| ==> Skipped(rows[j])
    ensures Scan(rows) == NotFound
  {
    if rows != [] {
      assert Skipped(rows[0]);
      ScanAllSkipped(rows[1..]);
    }
  }

  /** `_last_value(wb_json)` as a value: `None` unless the answer is a list
      of at least two entries; `rows = wb_json[1] or []`; a list is scanned;
      iterating a dict yields its keys, strings without `.get`, so only a
      dict whose one key is "" gets through; any other truthy value raises
      (a string's first character has no `.get`, a number is not iterable). */
  function LastValueOf(wb: Json): Lookup {
    if !wb.JArr? || |wb.items| < 2 then NotFound
    else
      var rows := wb.items[1];
      if !Truthy(rows) then NotFound
      else match rows
        case JArr(items) => Scan(items)
        case JObj(fields) => if fields.Keys == {""} then NotFound else Raises
        case _ => Raises
  }

  /** The loop of `_last_value`, with its early return. */
  method ScanRows(rows: seq<Json>) returns (r: Lookup)
    ensures r == Scan(rows)
  {
    var i := 0;
    while i < |rows|
      invariant 0 <= i <= |rows|
      invariant Scan(rows) == Scan(rows[i..])
    {
      var row := rows[i];
      assert rows[i..][1..] == rows[i + 1..];
      if Truthy(row) {
        if !row.JObj? {
          return Raises;
        }
        var value := GetOr(row.fields, "value", JNull);
        if value != JNull {
          return Found(Observation(GetOr(row.fields, "date", JNull), value));
        }
      }
      i := i + 1;
    }
    r := NotFound;
  }

  /** `_last_value(wb_json)`. */
  method LastValue(wb: Json) returns (r: Lookup)
    ensures r == LastValueOf(wb)
  {
    if !wb.JArr? || |wb.items| < 2 {
      return NotFound;
    }
    var rows := wb.items[1];
    if !Truthy(rows) {
      return NotFound;
    }
    match rows {
      case JArr(items) =>
        r := ScanRows(items);
      case JObj(fields) =>
        r := if fields.Keys == {""} then NotFound else Raises;
      case _ =>
        r := Raises;
    }
  }

  /** An answer that is not a list of at least two entries has no value;
      a list of rows is answered by its first row that is not passed over,
      and by `None` when there is no such row. */
  lemma LastValueCases(wb: Json)
    ensures !wb.JArr? || |wb.items| < 2 ==> LastValueOf(wb) == NotFound
    ensures wb.JArr? && |wb.items| >= 2 && wb.items[1].JArr? ==>
              var rows := wb.items[1].items;
              && (forall i :: 0 <= i < |rows| && !Skipped(rows[i]) && (forall j :: 0 <= j < i ==> Skipped(rows[j])) ==>
                    LastValueOf(wb) == if Usable(rows[i]) then Found(ObservationOf(rows[i])) else Raises)
              && ((forall j :: 0 <= j < |rows| ==> Skipped(rows[j])) ==> LastValueOf(wb) == NotFound)
  {
    if wb.JArr? && |wb.items| >= 2 && wb.items[1].JArr? {
      var rows := wb.items[1].items;
      forall i | 0 <= i < |rows| && !Skipped(rows[i]) && (forall j :: 0 <= j < i ==> Skipped(rows[j]))
        ensures Scan(rows) == if Usable(rows[i]) then Found(ObservationOf(rows[i])) else Raises
      {
        ScanFirstDecisive(rows, i);
      }
      if forall j :: 0 <= j < |rows| ==> Skipped(rows[j]) {
        ScanAllSkipped(rows);
      }
    }
  }

  /** The two series `fetch_world_reserves` reports. */
  datatype Reserves = Reserves(total: Option<Observation>, gold: Option<Observation>)

  function Reported(l: Lookup): Option<Observation> {
    if l.Found? then Some(l.obs) else None
  }

  /** `fetch_world_reserves()` given the answers to its two GETs: a failed
      total-reserves request, or a `_last_value` that raises, sends the
      whole call to its `except` and gives `None`; a failed gold request
      only leaves the gold series out. */
  function WorldReserves(total: Outcome, gold: Outcome): Option<Reserves> {
    match ReceiveJson(total)
    case Err(_) => None
    case Ok(totalJson) =>
      var goldJson := if ReceiveJson(gold).Ok? then ReceiveJson(gold).value else JNull;
      var t := LastValueOf(totalJson);
      var g := if Truthy(goldJson) then LastValueOf(goldJson) else NotFound;
      if t.Raises? || g.Raises? then None
      else Some(Reserves(Reported(t), Reported(g)))
  }

  /** `fetch_world_reserves()`. */
  method FetchWorldReserves(total: Outcome, gold: Outcome) returns (r: Option<Reserves>)
    ensures r == WorldReserves(total, gold)
  {
    var totalJson := ReceiveJson(total);
    if totalJson.Err? {
      return None;
    }
    var goldJson := JNull;
    var goldReply := ReceiveJson(gold);
    if goldReply.Ok? {
      goldJson := goldReply.value;
    }
    var t := LastValue(totalJson.value);
    var g := NotFound;
    if Truthy(goldJson) {
      g := LastValue(goldJson);
    }
    if t.Raises? || g.Raises? {
      return None;
    }
    r := Some(Reserves(Reported(t), Reported(g)));
  }

  /** Every observation reported carries a value, and losing the gold
      request never loses the total. */
  lemma WorldReservesReported(total: Outcome, gold: Outcome)
    ensures WorldReserves(total, gold).Some? ==> ReceiveJson(total).Ok?
    ensures var r := WorldReserves(total, gold);
            r.Some? ==> (r.value.total.Some? ==> r.value.total.value.value != JNull)
                        && (r.value.gold.Some? ==> r.value.gold.value.value != JNull)
    ensures ReceiveJson(total).Ok? && ReceiveJson(gold).Err? && !LastValueOf(ReceiveJson(total).value).Raises? ==>
              WorldReserves(total, gold) == Some(Reserves(Reported(LastValueOf(ReceiveJson(total).value)), None))
  {
    match ReceiveJson(total) {
      case Err(_) =>
      case Ok(totalJson) =>
        ScanValues(totalJson);
        if ReceiveJson(gold).Ok? {
          ScanValues(ReceiveJson(gold).value);
        }
    }
  }

  lemma {:induction false} ScanValuesOf(rows: seq<Json>)
    ensures Scan(rows).Found? ==> Scan(rows).obs.value != JNull
  {
    if rows != [] && !Usable(rows[0]) && Skipped(rows[0]) {
      ScanValuesOf(rows[1..]);
    }
  }

  lemma ScanValues(wb: Json)
    ensures LastValueOf(wb).Found? ==> LastValueOf(wb).obs.value != JNull
  {
    if wb.JArr? && |wb.items| >= 2 && wb.items[1].JArr? {
      ScanValuesOf(wb.items[1].items);
    }
  }
}
