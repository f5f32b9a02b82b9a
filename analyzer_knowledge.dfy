/** The analyzer's knowledge base for one user: the records fetched from
    the stock agent, the receipt agent and the user database, filtered and
    rendered as one line of text each. */
module AnalyzerKnowledge {
  import opened Wrappers
  import opened Text
  import opened Values
  import opened Rows
  import StockAgent

  /** What a data source returned: a list of records, `None` (or another
      falsy value), or an exception. */
  datatype FetchOutcome = Fetched(records: seq<Record>) | FetchedNothing | FetchRaised

  /** `isinstance(x, (int, float))`; `bool` is a subclass of `int`. */
  predicate IsNumber(v: Value) {
    v.Int? || v.Bool? || v.Float?
  }

  /** `_validate_stock_item`: name, quantity and category are present and
      the quantity is a number. */
  predicate ValidStockItem(item: Record) {
    HasKey(item, "name") && HasKey(item, "quantity") && HasKey(item, "category")
    && IsNumber(Lookup(item, "quantity").value)
  }

  /** `_safe_fetch_stock`: the valid stock records; nothing when the fetch
      returned nothing or raised. */
  function SafeFetchStock(outcome: FetchOutcome): (r: seq<Record>)
    ensures outcome.Fetched? ==> forall item :: item in r <==> item in outcome.records && ValidStockItem(item)
    ensures !outcome.Fetched? ==> r == []
  {
    match outcome
    case Fetched(records) =>
      FilterMembers(records, ValidStockItem);
      Filter(records, ValidStockItem)
    case _ => []
  }

  /** The stock filter goes record by record: a single record is kept iff it
      is valid, and the result for a concatenation is the results for its
      parts, in order, so the input's order and duplicates are kept. */
  lemma SafeFetchStockKeepsOrder(records: seq<Record>, more: seq<Record>, item: Record)
    ensures SafeFetchStock(Fetched([item])) == if ValidStockItem(item) then [item] else []
    ensures SafeFetchStock(Fetched(records + more)) == SafeFetchStock(Fetched(records)) + SafeFetchStock(Fetched(more))
  {
    assert [item][1..] == [];
    FilterAppend(records, more, ValidStockItem);
  }

  /** `_safe_fetch_receipts` and `_safe_fetch_user_info`: the records as
      fetched, unfiltered; nothing when the fetch returned nothing or raised. */
  function SafeFetch(outcome: FetchOutcome): (r: seq<Record>)
    ensures outcome.Fetched? ==> r == outcome.records
    ensures !outcome.Fetched? ==> r == []
  {
    if outcome.Fetched? then outcome.records else []
  }

  /** The stock agent's fetch builds records that always pass the analyzer's
      validation, so none of them is dropped. */
  lemma FetchedStockIsValid(stock: seq<StockAgent.StockRow>, userId: int)
    ensures SafeFetchStock(Fetched(StockAgent.FetchAllStockItems(stock, userId)))
            == StockAgent.FetchAllStockItems(stock, userId)
  {
    var records := StockAgent.FetchAllStockItems(stock, userId);
    forall i | 0 <= i < |records| ensures ValidStockItem(records[i]) {
      var d := records[i];
      assert HasKey(d, "name") by { assert d[1].0 == "name"; }
      assert HasKey(d, "quantity") by { assert d[2].0 == "quantity"; }
      assert HasKey(d, "category") by { assert d[4].0 == "category"; }
      assert Lookup(d, "quantity") == Some(d[2].1);
    }
    FilterKeepsAll(records, ValidStockItem);
  }

  // ---------------------------------------------------------------- knowledge lines

  /** The line for one stock record; a missing key raises KeyError. */
  function StockLine(item: Record): (r: Result<string, PyError>)
    ensures r.Ok? <==> HasKey(item, "name") && HasKey(item, "quantity") && HasKey(item, "category")
    ensures r.Ok? ==> StartsWith(r.value, "Stock: ")
  {
    match (Lookup(item, "name"), Lookup(item, "quantity"), Lookup(item, "category"))
    case (None, _, _) => Err(KeyError("name"))
    case (_, None, _) => Err(KeyError("quantity"))
    case (_, _, None) => Err(KeyError("category"))
    case (Some(name), Some(quantity), Some(category)) =>
      Ok("Stock: " + Render(name) + ", Quantity: " + Render(quantity) + ", Category: " + Render(category))
  }

  /** The line for one receipt record; a missing key raises KeyError. */
  function ReceiptLine(item: Record): (r: Result<string, PyError>)
    ensures r.Ok? <==> HasKey(item, "name") && HasKey(item, "purchase_date")
    ensures r.Ok? ==> StartsWith(r.value, "Receipt: ")
  {
    match (Lookup(item, "name"), Lookup(item, "purchase_date"))
    case (None, _) => Err(KeyError("name"))
    case (_, None) => Err(KeyError("purchase_date"))
    case (Some(name), Some(purchased)) => Ok("Receipt: " + Render(name) + ", Purchased: " + Render(purchased))
  }

  /** The line for one user record, with defaults for missing fields. */
  function UserLine(info: Record): (r: Result<string, PyError>)
    ensures r.Ok? && StartsWith(r.value, "User: ")
  {
    Ok("User: " + Render(Get(info, "first_name", Str("Unknown")))
       + ", Allergies: " + Render(Get(info, "allergies", Str("None"))))
  }

  /** The lines of a prefix of one group, or the first KeyError. */
  function GroupLines(items: seq<Record>, line: Record -> Result<string, PyError>): (r: Result<seq<string>, PyError>)
    ensures r.Ok? ==> |r.value| == |items|
    decreases |items|
  {
    if items == [] then Ok([])
    else
      match GroupLines(items[..|items| - 1], line)
      case Err(e) => Err(e)
      case Ok(done) =>
        match line(items[|items| - 1])
        case Err(e) => Err(e)
        case Ok(l) => Ok(done + [l])
  }

  /** A group's lines are there exactly when every record has its line, one
      line per record in input order. */
  lemma {:induction false} GroupLinesOutcome(items: seq<Record>, line: Record -> Result<string, PyError>)
    ensures GroupLines(items, line).Ok? <==> forall i :: 0 <= i < |items| ==> line(items[i]).Ok?
    ensures GroupLines(items, line).Ok? ==>
              forall i :: 0 <= i < |items| ==> GroupLines(items, line).value[i] == line(items[i]).value
  {
    if items != [] {
      var n := |items| - 1;
      GroupLinesOutcome(items[..n], line);
      assert forall i :: 0 <= i < n ==> items[..n][i] == items[i];
    }
  }

  /** Once a group has failed, the records after the failure do not matter. */
  lemma {:induction false} GroupErrorPersists(items: seq<Record>, line: Record -> Result<string, PyError>, k: nat)
    requires k <= |items| && GroupLines(items[..k], line).Err?
    ensures GroupLines(items, line) == GroupLines(items[..k], line)
  {
    if k < |items| {
      assert items[..|items| - 1][..k] == items[..k];
      GroupErrorPersists(items[..|items| - 1], line, k);
    } else {
      assert items[..k] == items;
    }
  }

  /** Three groups of lines, one after the other, or the first error. */
  function ThreeGroups(xs: seq<Record>, f: Record -> Result<string, PyError>,
                       ys: seq<Record>, g: Record -> Result<string, PyError>,
                       zs: seq<Record>, h: Record -> Result<string, PyError>): Result<seq<string>, PyError>
  {
    var a :- GroupLines(xs, f);
    var b :- GroupLines(ys, g);
    var c :- GroupLines(zs, h);
    Ok(a + b + c)
  }

  /** One line per record, the three groups in order, each in input order. */
  lemma ThreeGroupsLayout(xs: seq<Record>, f: Record -> Result<string, PyError>,
                          ys: seq<Record>, g: Record -> Result<string, PyError>,
                          zs: seq<Record>, h: Record -> Result<string, PyError>)
    ensures ThreeGroups(xs, f, ys, g, zs, h).Ok? <==>
            (forall i :: 0 <= i < |xs| ==> f(xs[i]).Ok?) && (forall i :: 0 <= i < |ys| ==> g(ys[i]).Ok?)
            && (forall i :: 0 <= i < |zs| ==> h(zs[i]).Ok?)
    ensures ThreeGroups(xs, f, ys, g, zs, h).Ok? ==>
            var k := ThreeGroups(xs, f, ys, g, zs, h).value;
            && |k| == |xs| + |ys| + |zs|
            && (forall j :: 0 <= j < |xs| ==> k[j] == f(xs[j]).value)
            && (forall j :: |xs| <= j < |xs| + |ys| ==> k[j] == g(ys[j - |xs|]).value)
            && (forall j :: |xs| + |ys| <= j < |k| ==> k[j] == h(zs[j - |xs| - |ys|]).value)
  {
    GroupLinesOutcome(xs, f);
    GroupLinesOutcome(ys, g);
    GroupLinesOutcome(zs, h);
  }

  /** `_build_knowledge_items` as a value: the stock lines, then the receipt
      lines, then the user lines. */
  function Knowledge(stock: seq<Record>, receipts: seq<Record>, users: seq<Record>): Result<seq<string>, PyError> {
    ThreeGroups(stock, StockLine, receipts, ReceiptLine, users, UserLine)
  }

  /** One line per record: all stock lines first, then the receipt lines,
      then the user lines, each group in input order. */
  lemma KnowledgeLayout(stock: seq<Record>, receipts: seq<Record>, users: seq<Record>)
    requires Knowledge(stock, receipts, users).Ok?
    ensures var k := Knowledge(stock, receipts, users).value;
            && |k| == |stock| + |receipts| + |users|
            && (forall j :: 0 <= j < |stock| ==> StockLine(stock[j]).Ok? && k[j] == StockLine(stock[j]).value)
            && (forall j :: |stock| <= j < |stock| + |receipts| ==>
                  ReceiptLine(receipts[j - |stock|]).Ok? && k[j] == ReceiptLine(receipts[j - |stock|]).value)
            && (forall j :: |stock| + |receipts| <= j < |k| ==>
                  k[j] == UserLine(users[j - |stock| - |receipts|]).value)
    ensures var k := Knowledge(stock, receipts, users).value;
            && (forall j :: 0 <= j < |stock| ==> StartsWith(k[j], "Stock: "))
            && (forall j :: |stock| <= j < |stock| + |receipts| ==> StartsWith(k[j], "Receipt: "))
            && (forall j :: |stock| + |receipts| <= j < |k| ==> StartsWith(k[j], "User: "))
  {
    var k := Knowledge(stock, receipts, users).value;
    var f, g, h := StockLine, ReceiptLine, UserLine;
    ThreeGroupsLayout(stock, f, receipts, g, users, h);
    forall j | 0 <= j < |stock| ensures StockLine(stock[j]).Ok? && k[j] == StockLine(stock[j]).value {
      assert f(stock[j]) == StockLine(stock[j]);
    }
    forall j | |stock| <= j < |stock| + |receipts|
      ensures ReceiptLine(receipts[j - |stock|]).Ok? && k[j] == ReceiptLine(receipts[j - |stock|]).value
    {
      assert g(receipts[j - |stock|]) == ReceiptLine(receipts[j - |stock|]);
    }
    forall j | |stock| + |receipts| <= j < |k| ensures k[j] == UserLine(users[j - |stock| - |receipts|]).value {
      assert h(users[j - |stock| - |receipts|]) == UserLine(users[j - |stock| - |receipts|]);
    }
  }

  /** Validated stock and receipts carrying name and purchase date always
      give a knowledge base. */
  lemma KnowledgeOfValidRecords(stock: seq<Record>, receipts: seq<Record>, users: seq<Record>)
    requires forall i :: 0 <= i < |stock| ==> ValidStockItem(stock[i])
    requires forall i :: 0 <= i < |receipts| ==> HasKey(receipts[i], "name") && HasKey(receipts[i], "purchase_date")
    ensures Knowledge(stock, receipts, users).Ok?
  {
    ThreeGroupsLayout(stock, StockLine, receipts, ReceiptLine, users, UserLine);
  }

  /** A receipt without a purchase date makes the whole knowledge base fail
      with KeyError. */
  lemma ReceiptWithoutDateFails(stock: seq<Record>, receipts: seq<Record>, users: seq<Record>, i: nat)
    requires i < |receipts| && !HasKey(receipts[i], "purchase_date")
    ensures Knowledge(stock, receipts, users).Err?
  {
    ThreeGroupsLayout(stock, StockLine, receipts, ReceiptLine, users, UserLine);
    assert ReceiptLine(receipts[i]).Err?;
  }

  /** `_build_knowledge_items`: three loops appending one line per record. */
  method BuildKnowledgeItems(stock: seq<Record>, receipts: seq<Record>, users: seq<Record>)
    returns (r: Result<seq<string>, PyError>)
    ensures r == Knowledge(stock, receipts, users)
  {
    var s := AppendLines(stock, StockLine);
    if s.Err? { return Err(s.error); }
    var rs := AppendLines(receipts, ReceiptLine);
    if rs.Err? { return Err(rs.error); }
    var u := AppendLines(users, UserLine);
    if u.Err? { return Err(u.error); }
    return Ok(s.value + rs.value + u.value);
  }

  /** One of the three loops of `_build_knowledge_items`. */
  method AppendLines(items: seq<Record>, line: Record -> Result<string, PyError>)
    returns (r: Result<seq<string>, PyError>)
    ensures r == GroupLines(items, line)
  {
    var knowledge: seq<string> := [];
    var i := 0;
    while i < |items|
      invariant 0 <= i <= |items|
      invariant GroupLines(items[..i], line) == Ok(knowledge)
    {
      assert items[..i + 1][..i] == items[..i];
      var l := line(items[i]);
      if l.Err? {
        GroupErrorPersists(items, line, i + 1);
        return Err(l.error);
      }
      knowledge := knowledge + [l.value];
      i := i + 1;
    }
    assert items[..i] == items;
    return Ok(knowledge);
  }
}
