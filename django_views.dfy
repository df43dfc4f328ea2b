/** The Django item views: CRUD handlers over the item table. Every exit path logs under the
    handler's own identifier, bumps the handler's (endpoint, method, status) series of requests_total
    and returns a fixed HTTP code. One series per exit, except when the item list's query fails:
    the queryset is lazy, so it runs only after the "success" series has been bumped. */
module DjangoViews {
  import opened Wrappers
  import opened Http
  import opened Logging
  import opened Metrics
  import Decimal

  /** What the serializer's is_valid() decided about the request data: the validated fields,
      or the field errors together with their str() rendering used in the log. */
  datatype Verdict = Valid(fields: Json) | Invalid(errors: Json, shown: string)

  /** The five item handlers, each with its fixed endpoint label and method label. */
  datatype Handler = ListGet | ListPost | DetailGet | DetailPut | DetailDelete {
    function Endpoint(): string {
      match this
      case ListGet => "item_list"
      case ListPost => "item_create"
      case DetailGet => "item_detail"
      case DetailPut => "item_update"
      case DetailDelete => "item_delete"
    }

    function Verb(): string {
      match this
      case ListGet => "GET"
      case ListPost => "POST"
      case DetailGet => "GET"
      case DetailPut => "PUT"
      case DetailDelete => "DELETE"
    }

    /** The counter series this handler bumps for an exit with the given status. */
    function Series(status: string): Labels {
      (Endpoint(), Verb(), status)
    }

    /** Handlers that first fetch one item by primary key. */
    predicate Keyed() {
      DetailGet? || DetailPut? || DetailDelete?
    }

    /** Handlers that run the serializer's validation on request data. */
    predicate Validates() {
      ListPost? || DetailPut?
    }
  }

  /** The status label a handler exit counts under and the HTTP code it answers with. */
  datatype ViewExit = ViewExit(status: string, code: int)

  /** The exit a handler takes: an unexpected exception wins, then a missing key (looked up before
      any validation), then invalid data; otherwise success. */
  function Settle(h: Handler, found: bool, valid: bool, faulted: bool): (x: ViewExit)
    ensures x.status == "success" || x.status == "error" || x.status == "not_found"
    ensures x.status == "not_found" <==> x.code == 404
    ensures x.status == "success" <==> x.code == 200 || x.code == 201 || x.code == 204
    ensures x.code == 500 <==> faulted
    ensures x.code == 404 <==> !faulted && h.Keyed() && !found
    ensures x.code == 400 <==> !faulted && (found || !h.Keyed()) && h.Validates() && !valid
    ensures x.code == 201 <==> !faulted && h.ListPost? && valid
    ensures x.code == 204 <==> !faulted && h.DetailDelete? && found
    ensures x.code == 200 <==> !faulted && (found || !h.Keyed()) && (valid || !h.Validates())
                               && !h.ListPost? && !h.DetailDelete?
    ensures x.code in {200, 201, 204, 400, 404, 500}
  {
    if faulted then ViewExit("error", 500)
    else if h.Keyed() && !found then ViewExit("not_found", 404)
    else if h.Validates() && !valid then ViewExit("error", 400)
    else ViewExit("success", if h.ListPost? then 201 else if h.DetailDelete? then 204 else 200)
  }

  /** A missing key answers 404 whatever the request data: lookup precedes validation. */
  lemma MissingKeyIgnoresData(h: Handler, v1: bool, v2: bool)
    requires h.Keyed()
    ensures Settle(h, false, v1, false) == Settle(h, false, v2, false) == ViewExit("not_found", 404)
  {
  }

  /** A failing list query bumps two series: "success", which the handler bumps before the lazy
      queryset runs, and then "error". The counter total rises by two. */
  lemma ListQueryFaultCountsTwice(m: map<Labels, nat>)
    ensures var succeeded := ListGet.Series("success");
      var failed := ListGet.Series(Settle(ListGet, true, true, true).status);
      var after := Bumped(Bumped(m, succeeded), failed);
      && succeeded != failed
      && Count(after, succeeded) == Count(m, succeeded) + 1
      && Count(after, failed) == Count(m, failed) + 1
      && Total(after) == Total(m) + 2
  {
    var succeeded := ListGet.Series("success");
    TotalBumped(m, succeeded);
    TotalBumped(Bumped(m, succeeded), ListGet.Series("error"));
  }

  /** The stored items keyed by primary key; keys are drawn from an auto-increment sequence. */
  class ItemTable {
    var rows: map<int, Json>
    var nextPk: int

    ghost predicate Valid()
      reads this
    {
      forall k :: k in rows ==> k < nextPk
    }

    constructor ()
      ensures Valid() && rows == map[] && nextPk == 1
    {
      rows := map[];
      nextPk := 1;
    }

    /** serializer.save() on a new item: stores it under a key never used before. */
    method Insert(fields: Json) returns (pk: int)
      requires Valid()
      modifies this
      ensures Valid()
      ensures pk == old(nextPk) && pk !in old(rows)
      ensures rows == old(rows)[pk := fields] && nextPk == old(nextPk) + 1
    {
      pk := nextPk;
      rows := rows[pk := fields];
      nextPk := nextPk + 1;
    }

    /** serializer.save() on an existing item: replaces its fields. */
    method Update(pk: int, fields: Json)
      requires Valid() && pk in rows
      modifies this
      ensures Valid()
      ensures rows == old(rows)[pk := fields] && nextPk == old(nextPk)
    {
      rows := rows[pk := fields];
    }

    /** item.delete(): removes exactly that key. */
    method Remove(pk: int)
      requires Valid() && pk in rows
      modifies this
      ensures Valid()
      ensures rows == old(rows) - {pk} && nextPk == old(nextPk)
    {
      rows := rows - {pk};
    }
  }

  class ItemList {
    const counter: Registry
    const logger: Logger
    const table: ItemTable

    constructor (counter: Registry, logger: Logger, table: ItemTable)
      ensures this.counter == counter && this.logger == logger && this.table == table
    {
      this.counter := counter;
      this.logger := logger;
      this.table := table;
    }

    /** GET on the list: all items, or 500 with no body when the query raises `fault`. The query is
        lazy: it runs when the serialized data is read, after "success" has already been bumped, so a
        failing query bumps "success" and then "error". */
    method Get(logId: string, fault: Option<string>) returns (reply: Response)
      modifies counter, logger
      ensures var x := Settle(ListGet, true, true, fault.Some?);
        && counter.series == (if fault.Some?
                              then Bumped(Bumped(old(counter.series), ListGet.Series("success")), ListGet.Series(x.status))
                              else Bumped(old(counter.series), ListGet.Series(x.status)))
        && reply.code == x.code
      ensures Total(counter.series) == old(Total(counter.series)) + if fault.Some? then 2 else 1
      ensures fault.None? ==>
        && reply.body == Rows(table.rows)
        && logger.trail == old(logger.trail) + [LogRecord(Info, Some(logId), "Accessed Item List endpoint")]
      ensures fault.Some? ==>
        && reply.body == NoBody
        && logger.trail == old(logger.trail)
             + [LogRecord(Info, Some(logId), "Accessed Item List endpoint"),
                LogRecord(Error, Some(logId), "Failed to retrieve item list: " + fault.value)]
    {
      var id := Some(logId);
      logger.Info(id, "Accessed Item List endpoint");
      counter.Inc(("item_list", "GET", "success"));
      if fault.Some? {
        logger.Error(id, "Failed to retrieve item list: " + fault.value);
        counter.Inc(("item_list", "GET", "error"));
        reply := Response(500, NoBody);
        return;
      }
      reply := Response(200, Rows(table.rows));
    }

    /** POST on the list: creates the item when the data is valid (201), answers 400 with the field
        errors when it is not, and 500 when validation or saving raises `fault`. */
    method Post(logId: string, verdict: Verdict, fault: Option<string>) returns (reply: Response)
      requires table.Valid()
      modifies counter, logger, table
      ensures table.Valid()
      ensures var x := Settle(ListPost, true, verdict.Valid?, fault.Some?);
        counter.series == Bumped(old(counter.series), ListPost.Series(x.status)) && reply.code == x.code
      ensures Total(counter.series) == old(Total(counter.series)) + 1
      ensures fault.None? && verdict.Valid? ==>
        && old(table.nextPk) !in old(table.rows)
        && table.rows == old(table.rows)[old(table.nextPk) := verdict.fields]
        && reply.body == Record(old(table.nextPk), verdict.fields)
        && logger.trail == old(logger.trail) + [LogRecord(Info, Some(logId), "Creating a new Item")]
      ensures fault.None? && verdict.Invalid? ==>
        && table.rows == old(table.rows)
        && reply.body == Content(verdict.errors)
        && logger.trail == old(logger.trail)
             + [LogRecord(Info, Some(logId), "Creating a new Item"),
                LogRecord(Error, Some(logId), "Failed to create item: " + verdict.shown)]
      ensures fault.Some? ==>
        && table.rows == old(table.rows)
        && reply.body == NoBody
        && logger.trail == old(logger.trail)
             + [LogRecord(Info, Some(logId), "Creating a new Item"),
                LogRecord(Error, Some(logId), "Failed to create item: " + fault.value)]
    {
      var id := Some(logId);
      logger.Info(id, "Creating a new Item");
      if fault.Some? {
        logger.Error(id, "Failed to create item: " + fault.value);
        counter.Inc(("item_create", "POST", "error"));
        reply := Response(500, NoBody);
        return;
      }
      if verdict.Valid? {
        var pk := table.Insert(verdict.fields);
        counter.Inc(("item_create", "POST", "success"));
        reply := Response(201, Record(pk, verdict.fields));
        return;
      }
      logger.Error(id, "Failed to create item: " + verdict.shown);
      counter.Inc(("item_create", "POST", "error"));
      reply := Response(400, Content(verdict.errors));
    }
  }

  class ItemDetail {
    const counter: Registry
    const logger: Logger
    const table: ItemTable

    constructor (counter: Registry, logger: Logger, table: ItemTable)
      ensures this.counter == counter && this.logger == logger && this.table == table
    {
      this.counter := counter;
      this.logger := logger;
      this.table := table;
    }

    /** GET on one item: 200 with it, 404 when the key is missing, 500 when the query raises `fault`. */
    method Get(pk: int, logId: string, fault: Option<string>) returns (reply: Response)
      modifies counter, logger
      ensures var x := Settle(DetailGet, pk in table.rows, true, fault.Some?);
        counter.series == Bumped(old(counter.series), DetailGet.Series(x.status)) && reply.code == x.code
      ensures Total(counter.series) == old(Total(counter.series)) + 1
      ensures var entry := LogRecord(Info, Some(logId), "Accessed Item Detail for item " + Decimal.FromInt(pk));
        && (fault.None? && pk in table.rows ==>
              reply.body == Record(pk, table.rows[pk]) && logger.trail == old(logger.trail) + [entry])
        && (fault.None? && pk !in table.rows ==>
              reply.body == NoBody
              && logger.trail == old(logger.trail)
                   + [entry, LogRecord(Error, Some(logId), "Item " + Decimal.FromInt(pk) + " not found")])
        && (fault.Some? ==>
              reply.body == NoBody
              && logger.trail == old(logger.trail)
                   + [entry, LogRecord(Error, Some(logId), "Failed to retrieve item detail: " + fault.value)])
    {
      var id := Some(logId);
      logger.Info(id, "Accessed Item Detail for item " + Decimal.FromInt(pk));
      if fault.Some? {
        logger.Error(id, "Failed to retrieve item detail: " + fault.value);
        counter.Inc(("item_detail", "GET", "error"));
        reply := Response(500, NoBody);
        return;
      }
      if pk !in table.rows {
        logger.Error(id, "Item " + Decimal.FromInt(pk) + " not found");
        counter.Inc(("item_detail", "GET", "not_found"));
        reply := Response(404, NoBody);
        return;
      }
      counter.Inc(("item_detail", "GET", "success"));
      reply := Response(200, Record(pk, table.rows[pk]));
    }

    /** PUT on one item: the key is looked up before the data is validated, so a missing key answers
        404 whatever the data; invalid data answers 400 and leaves the item as it was. */
    method Put(pk: int, logId: string, verdict: Verdict, fault: Option<string>) returns (reply: Response)
      requires table.Valid()
      modifies counter, logger, table
      ensures table.Valid() && table.nextPk == old(table.nextPk)
      ensures var x := Settle(DetailPut, pk in old(table.rows), verdict.Valid?, fault.Some?);
        counter.series == Bumped(old(counter.series), DetailPut.Series(x.status)) && reply.code == x.code
      ensures Total(counter.series) == old(Total(counter.series)) + 1
      ensures table.rows == if fault.None? && pk in old(table.rows) && verdict.Valid?
                            then old(table.rows)[pk := verdict.fields] else old(table.rows)
      ensures var k := Decimal.FromInt(pk);
        var entry := LogRecord(Info, Some(logId), "Updating Item " + k);
        && (fault.None? && pk in old(table.rows) && verdict.Valid? ==>
              reply.body == Record(pk, verdict.fields) && logger.trail == old(logger.trail) + [entry])
        && (fault.None? && pk in old(table.rows) && verdict.Invalid? ==>
              reply.body == Content(verdict.errors)
              && logger.trail == old(logger.trail)
                   + [entry, LogRecord(Error, Some(logId), "Failed to update item " + k + ": " + verdict.shown)])
        && (fault.None? && pk !in old(table.rows) ==>
              reply.body == NoBody
              && logger.trail == old(logger.trail) + [entry, LogRecord(Error, Some(logId), "Item " + k + " not found")])
        && (fault.Some? ==>
              reply.body == NoBody
              && logger.trail == old(logger.trail)
                   + [entry, LogRecord(Error, Some(logId), "Failed to update item " + k + ": " + fault.value)])
    {
      var id := Some(logId);
      var k := Decimal.FromInt(pk);
      logger.Info(id, "Updating Item " + k);
      if fault.Some? {
        logger.Error(id, "Failed to update item " + k + ": " + fault.value);
        counter.Inc(("item_update", "PUT", "error"));
        reply := Response(500, NoBody);
        return;
      }
      if pk !in table.rows {
        logger.Error(id, "Item " + k + " not found");
        counter.Inc(("item_update", "PUT", "not_found"));
        reply := Response(404, NoBody);
        return;
      }
      if verdict.Valid? {
        table.Update(pk, verdict.fields);
        counter.Inc(("item_update", "PUT", "success"));
        reply := Response(200, Record(pk, verdict.fields));
        return;
      }
      logger.Error(id, "Failed to update item " + k + ": " + verdict.shown);
      counter.Inc(("item_update", "PUT", "error"));
      reply := Response(400, Content(verdict.errors));
    }

    /** DELETE on one item: removes exactly that key (204), or answers 404 when it is missing. */
    method Delete(pk: int, logId: string, fault: Option<string>) returns (reply: Response)
      requires table.Valid()
      modifies counter, logger, table
      ensures table.Valid() && table.nextPk == old(table.nextPk)
      ensures var x := Settle(DetailDelete, pk in old(table.rows), true, fault.Some?);
        counter.series == Bumped(old(counter.series), DetailDelete.Series(x.status)) && reply.code == x.code
      ensures Total(counter.series) == old(Total(counter.series)) + 1
      ensures reply.body == NoBody
      ensures table.rows == if fault.None? && pk in old(table.rows) then old(table.rows) - {pk} else old(table.rows)
      ensures var k := Decimal.FromInt(pk);
        var entry := LogRecord(Info, Some(logId), "Deleting Item " + k);
        && (fault.None? && pk in old(table.rows) ==> logger.trail == old(logger.trail) + [entry])
        && (fault.None? && pk !in old(table.rows) ==>
              logger.trail == old(logger.trail) + [entry, LogRecord(Error, Some(logId), "Item " + k + " not found")])
        && (fault.Some? ==>
              logger.trail == old(logger.trail)
                + [entry, LogRecord(Error, Some(logId), "Failed to delete item " + k + ": " + fault.value)])
    {
      var id := Some(logId);
      var k := Decimal.FromInt(pk);
      logger.Info(id, "Deleting Item " + k);
      if fault.Some? {
        logger.Error(id, "Failed to delete item " + k + ": " + fault.value);
        counter.Inc(("item_delete", "DELETE", "error"));
        reply := Response(500, NoBody);
        return;
      }
      if pk !in table.rows {
        logger.Error(id, "Item " + k + " not found");
        counter.Inc(("item_delete", "DELETE", "not_found"));
        reply := Response(404, NoBody);
        return;
      }
      table.Remove(pk);
      counter.Inc(("item_delete", "DELETE", "success"));
      reply := Response(204, NoBody);
    }
  }

  class RootView {
    const logger: Logger

    constructor (logger: Logger)
      ensures this.logger == logger
    {
      this.logger := logger;
    }

    /** GET on the root: greets, logging outside any request identifier and touching no counter. */
    method Get() returns (reply: Response)
      modifies logger
      ensures reply == Response(200, Content(JObject([("Hello", JStr("World"))])))
      ensures logger.trail == old(logger.trail) + [LogRecord(Info, None, "Root endpoint accessed")]
    {
      logger.Info(None, "Root endpoint accessed");
      reply := Response(200, Content(JObject([("Hello", JStr("World"))])));
    }
  }
}
