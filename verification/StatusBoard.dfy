/** The status rows shown for tunnels (crates/cy-core/src/engine.rs, Status and open_and_record). */
module StatusBoard {
  import opened Basics
  import opened ControlMessages
  import opened ControlLoop

  /** What a row says about a failure: the wait for a held name, the final word on it, or the error itself. */
  datatype Shown = WaitingForName | NameTaken | Reason(code: Option<Code>)

  datatype Row = Row(
    name: string,
    localPort: Port,
    enabled: bool,
    url: Option<Endpoint>,
    error: Option<Shown>,
    guarded: bool)

  type Rows = map<string, Row>

  type OpenResult = Result<Endpoint, Option<Code>>

  function NewRow(spec: Spec): Row {
    Row(spec.name, spec.localPort, true, None, None, spec.auth.Some?)
  }

  function ShownError(code: Option<Code>): Shown {
    if code == Some(CodeTaken) then WaitingForName else Reason(code)
  }

  function WithResult(row: Row, spec: Spec, result: OpenResult): Row {
    var r := row.(localPort := spec.localPort, enabled := true);
    match result
    case Ok(public) => r.(url := Some(public), error := None)
    case Err(code) => r.(url := None, error := Some(ShownError(code)))
  }

  function Noted(rows: Rows, spec: Spec, result: OpenResult): Rows {
    rows[spec.name := WithResult(if spec.name in rows then rows[spec.name] else NewRow(spec), spec, result)]
  }

  function WithError(rows: Rows, name: string, e: Shown): Rows {
    if name in rows then rows[name := rows[name].(error := Some(e))] else rows
  }

  function WithGuard(rows: Rows, name: string, guarded: bool): Rows {
    if name in rows then rows[name := rows[name].(guarded := guarded)] else rows
  }

  function SwitchedOff(rows: Rows, name: string): Rows {
    if name in rows then rows[name := rows[name].(enabled := false, url := None)] else rows
  }

  function Switched(rows: Rows, name: string, enabled: bool): Rows {
    if name in rows then rows[name := rows[name].(enabled := enabled)] else rows
  }

  function UrlsCleared(rows: Rows): Rows {
    map name | name in rows :: rows[name].(url := None)
  }

  /** Only the addresses go. */
  lemma ClearedKeepsTheRest(rows: Rows)
    ensures UrlsCleared(rows).Keys == rows.Keys
    ensures forall name <- rows ::
      var row, row' := rows[name], UrlsCleared(rows)[name];
      row' == Row(row.name, row.localPort, row.enabled, None, row.error, row.guarded)
  {
  }

  function Listed(rows: Rows, spec: Spec): Rows {
    if spec.name in rows then rows else rows[spec.name := NewRow(spec)]
  }

  /** The list holds exactly the rows of the index, one per name. */
  ghost predicate Indexed(list: seq<Row>, index: Rows) {
    && (forall i, j :: 0 <= i < j < |list| ==> list[i].name != list[j].name)
    && (forall i :: 0 <= i < |list| ==> list[i].name in index && index[list[i].name] == list[i])
    && (forall name <- index :: exists i :: 0 <= i < |list| && list[i].name == name)
  }

  function Without(list: seq<Row>, at: nat): seq<Row>
    requires at < |list|
  {
    list[..at] + list[at + 1..]
  }

  lemma OthersStay(list: seq<Row>, at: nat)
    requires at < |list|
    ensures forall i :: 0 <= i < |list| - 1 ==> Without(list, at)[i] == list[if i < at then i else i + 1]
    ensures forall i :: 0 <= i < |list| && i != at ==> list[i] in Without(list, at)
  {
    forall i | 0 <= i < |list| && i != at
      ensures list[i] in Without(list, at)
    {
      assert Without(list, at)[if i < at then i else i - 1] == list[i];
    }
  }

  lemma NameStays(list: seq<Row>, at: nat, name: string, i: nat)
    requires at < |list| && i < |list| && i != at && list[i].name == name
    ensures exists k :: 0 <= k < |Without(list, at)| && Without(list, at)[k].name == name
  {
    OthersStay(list, at);
    var k :| 0 <= k < |Without(list, at)| && Without(list, at)[k] == list[i];
  }

  lemma NamesStayApart(list: seq<Row>, at: nat)
    requires at < |list| && forall i, j :: 0 <= i < j < |list| ==> list[i].name != list[j].name
    ensures var after := Without(list, at);
      && (forall i, j :: 0 <= i < j < |after| ==> after[i].name != after[j].name)
      && (forall i :: 0 <= i < |after| ==> after[i].name != list[at].name && after[i] in list)
  {
    OthersStay(list, at);
  }

  lemma DroppedStaysIndexed(list: seq<Row>, index: Rows, at: nat)
    requires Indexed(list, index) && at < |list|
    ensures Indexed(Without(list, at), index - {list[at].name})
  {
    NamesStayApart(list, at);
    forall name <- index - {list[at].name}
      ensures exists i :: 0 <= i < |Without(list, at)| && Without(list, at)[i].name == name
    {
      var i :| 0 <= i < |list| && list[i].name == name;
      NameStays(list, at, name, i);
    }
  }

  /**
   * The rows as the source keeps them, in a vector searched by name; the ghost index shows that they are a
   * map: one row per name.
   */
  class StatusBoard {
    var list: seq<Row>
    ghost var index: Rows

    ghost predicate Valid()
      reads this
    {
      Indexed(list, index)
    }

    constructor ()
      ensures Valid() && index == map[]
    {
      list, index := [], map[];
    }

    method Find(name: string) returns (at: int)
      requires Valid()
      ensures (0 <= at < |list| && list[at].name == name) || (at == |list| && name !in index)
    {
      at := 0;
      while at < |list|
        invariant 0 <= at <= |list|
        invariant forall i :: 0 <= i < at ==> list[i].name != name
      {
        if list[at].name == name {
          return;
        }
        at := at + 1;
      }
    }

    /** Replaces the row at `at` by one of the same name. */
    method Put(at: int, row: Row)
      requires Valid() && 0 <= at < |list| && row.name == list[at].name
      modifies this
      ensures Valid() && |list| == |old(list)| && index == old(index)[row.name := row]
    {
      ghost var before := list;
      list := list[at := row];
      index := index[row.name := row];
      assert forall i :: 0 <= i < |list| ==> list[i].name == before[i].name;
    }

    method Push(row: Row)
      requires Valid() && row.name !in index
      modifies this
      ensures Valid() && list == old(list) + [row] && index == old(index)[row.name := row]
    {
      ghost var before := list;
      list := list + [row];
      index := index[row.name := row];
      forall name <- index
        ensures exists i :: 0 <= i < |list| && list[i].name == name
      {
        if name == row.name {
          assert list[|before|].name == name;
        } else {
          var i :| 0 <= i < |before| && before[i].name == name;
          assert list[i].name == name;
        }
      }
    }

    method RecordResult(spec: Spec, result: OpenResult)
      requires Valid()
      modifies this
      ensures Valid() && index == Noted(old(index), spec, result)
      ensures spec.name in index && index - {spec.name} == old(index) - {spec.name}
      ensures index[spec.name] == Row(
        spec.name, spec.localPort, true,
        if result.Ok? then Some(result.value) else None,
        if result.Ok? then None else if result.error == Some(CodeTaken) then Some(WaitingForName) else Some(Reason(result.error)),
        if spec.name in old(index) then old(index)[spec.name].guarded else spec.auth.Some?)
    {
      var at := Find(spec.name);
      if at == |list| {
        Push(NewRow(spec));
      }
      Put(at, WithResult(list[at], spec, result));
    }

    method Remove(name: string)
      requires Valid()
      modifies this
      ensures Valid() && index == old(index) - {name}
    {
      var at := Find(name);
      if at < |list| {
        DroppedStaysIndexed(list, index, at);
        list := list[..at] + list[at + 1..];
        index := index - {name};
      }
    }

    method SwitchOff(name: string)
      requires Valid()
      modifies this
      ensures Valid() && index == SwitchedOff(old(index), name)
      ensures index - {name} == old(index) - {name} && (name in index <==> name in old(index))
      ensures name in old(index) ==> index[name] == old(index)[name].(enabled := false, url := None)
    {
      var at := Find(name);
      if at < |list| {
        Put(at, list[at].(enabled := false, url := None));
      }
    }

    method ClearUrls()
      requires Valid()
      modifies this
      ensures Valid() && index == UrlsCleared(old(index))
    {
      ghost var before := list;
      var at := 0;
      while at < |list|
        invariant 0 <= at <= |list| == |before|
        invariant forall i :: at <= i < |list| ==> list[i] == before[i]
        invariant forall i :: 0 <= i < at ==> list[i] == before[i].(url := None)
        modifies this`list
      {
        list := list[at := list[at].(url := None)];
        at := at + 1;
      }
      ghost var was := index;
      index := UrlsCleared(index);
      assert forall i :: 0 <= i < |list| ==> list[i].name == before[i].name;
      forall name <- index
        ensures exists i :: 0 <= i < |list| && list[i].name == name
      {
        assert name in was;
        var i :| 0 <= i < |before| && before[i].name == name;
        assert list[i].name == name;
      }
    }
  }
}
