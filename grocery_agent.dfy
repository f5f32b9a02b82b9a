/** The receipt agent: it validates the grocery items a vision model read
    from a receipt photo (`GroceryItem`, with its date normaliser) and keeps
    the receipts table. */
module GroceryAgent {
  import opened Wrappers
  import opened Text
  import opened Values
  import opened Rows
  import opened Dates
  import opened ImageExtraction

  // ================================================================ GroceryItem

  /** A validated `GroceryItem`, as `model_dump()` returns it. */
  datatype GroceryItem = GroceryItem(name: string, quantity: int, weight: PyFloat, category: string,
                                     purchaseDate: string, expirationDate: string)

  /** The ValidationError pydantic raises when a field constraint fails; it
      is a ValueError. Its per-field detail is not modelled. */
  const ValidationFailed := ValueError("validation error for GroceryItem")

  /** A date string in the normal form `YYYY-MM-DD` of a real date. */
  predicate IsNormalDate(s: string) {
    Strptime(s).Ok? && Strftime(Strptime(s).value) == s
  }

  /** What every validated item satisfies. */
  predicate ValidGroceryItem(g: GroceryItem) {
    g.quantity >= 0 && NonNegative(g.weight) && IsNormalDate(g.purchaseDate) && IsNormalDate(g.expirationDate)
  }

  /** The value of `weight` when the caller gives none. */
  const DefaultItemWeight: PyFloat := Finite(0, 1)

  /** Constructing a `GroceryItem` from field values. Fields are validated in
      declaration order; a constraint failure is collected into one
      ValidationError, while the TypeError `strptime` raises for a date that
      is not a string escapes the date validator at once. */
  function NewGroceryItem(name: Value, quantity: int, weight: Option<PyFloat>, category: Value,
                          purchaseDate: Value, expirationDate: Value): (r: Result<GroceryItem, PyError>)
    ensures !purchaseDate.Str? ==> r == Err(TypeError)
    ensures purchaseDate.Str? && !expirationDate.Str? ==> r == Err(TypeError)
    ensures r.Ok? <==>
              && name.Str? && quantity >= 0 && NonNegative(weight.GetOr(DefaultItemWeight)) && category.Str?
              && ValidateAndFormatDate(purchaseDate).Ok? && ValidateAndFormatDate(expirationDate).Ok?
    ensures r.Ok? ==> ValidGroceryItem(r.value)
    ensures r.Ok? ==> r.value.name == name.s && r.value.category == category.s && r.value.quantity == quantity
                      && r.value.weight == weight.GetOr(DefaultItemWeight)
    ensures r.Ok? ==> Strptime(r.value.purchaseDate) == Strptime(purchaseDate.s)
                      && Strptime(r.value.expirationDate) == Strptime(expirationDate.s)
    ensures r.Err? && purchaseDate.Str? && expirationDate.Str? ==> r == Err(ValidationFailed)
  {
    if !purchaseDate.Str? || !expirationDate.Str? then Err(TypeError)
    else
      var w := weight.GetOr(DefaultItemWeight);
      var purchase := ValidateAndFormatDate(purchaseDate);
      var expiration := ValidateAndFormatDate(expirationDate);
      if name.Str? && quantity >= 0 && NonNegative(w) && category.Str? && purchase.Ok? && expiration.Ok? then
        NormalForm(purchaseDate);
        NormalForm(expirationDate);
        Ok(GroceryItem(name.s, quantity, w, category.s, purchase.value, expiration.value))
      else Err(ValidationFailed)
  }

  /** A date the validator accepts comes back in normal form. */
  lemma NormalForm(v: Value)
    requires ValidateAndFormatDate(v).Ok?
    ensures IsNormalDate(ValidateAndFormatDate(v).value)
  {
    StrptimeOfStrftime(Strptime(v.s).value);
  }

  /** Without a weight the item weighs 0.0; a negative quantity or weight is
      refused. */
  lemma GroceryItemBounds(name: string, quantity: int, weight: PyFloat, category: string, purchase: string, expiration: string)
    requires Strptime(purchase).Ok? && Strptime(expiration).Ok?
    ensures var r := NewGroceryItem(Str(name), quantity, None, Str(category), Str(purchase), Str(expiration));
            (r.Ok? <==> quantity >= 0) && (r.Ok? ==> r.value.weight == Finite(0, 1))
    ensures quantity < 0 ==>
              NewGroceryItem(Str(name), quantity, Some(weight), Str(category), Str(purchase), Str(expiration)) == Err(ValidationFailed)
    ensures !NonNegative(weight) ==>
              NewGroceryItem(Str(name), quantity, Some(weight), Str(category), Str(purchase), Str(expiration)) == Err(ValidationFailed)
  {
  }

  // ================================================================ process_receipt

  const RequiredKeys: seq<string> := ["name", "quantity", "weight", "category", "purchase_date", "expiration_date"]

  /** `all(key in item for key in keys)`: stops at the first key that is
      missing; `in` on a value that is no container raises TypeError. */
  function AllKeysIn(keys: seq<string>, item: Value): (r: Result<bool, PyError>)
    ensures item.Dict? ==> r == Ok(forall k :: k in keys ==> HasKey(item.entries, k))
    ensures r.Err? <==> keys != [] && !(item.Dict? || item.List? || item.Str?)
    ensures r.Err? ==> r.error == TypeError
  {
    if keys == [] then Ok(true)
    else match In(keys[0], item)
         case Err(e) => Err(e)
         case Ok(found) => if found then AllKeysIn(keys[1..], item) else Ok(false)
  }

  /** The required-key check of one parsed item. */
  function CheckItemKeys(item: Value): (r: Result<Value, PyError>)
    ensures item.Dict? ==> (r.Ok? <==> forall k :: k in RequiredKeys ==> HasKey(item.entries, k))
    ensures r.Ok? ==> r.value == item
    ensures (item.Dict? || item.List? || item.Str?) && r.Err? ==> r.error == ValueError("Missing keys in item: " + Render(item))
    ensures !(item.Dict? || item.List? || item.Str?) ==> r == Err(TypeError)
  {
    match AllKeysIn(RequiredKeys, item)
    case Err(e) => Err(e)
    case Ok(found) => if found then Ok(item) else Err(ValueError("Missing keys in item: " + Render(item)))
  }

  const DefaultReceiptWeight: Value := Float(Finite(1, 1), "1.0")

  /** The construction of one item as the source writes it. Its last
      argument subscripts the bound method `item.get`, which raises
      TypeError once the conversions before it have succeeded; an item that
      is a list or string has no `get` at all. */
  function BuildItemAsWritten(item: Value): (r: Result<GroceryItem, PyError>)
    ensures r.Err?
  {
    match item
    case Dict(d) =>
      var quantity :- IntOf(Get(d, "quantity", Int(1)));
      var weight :- FloatOf(Get(d, "weight", DefaultReceiptWeight));
      Err(TypeError)
    case _ => Err(AttributeError)
  }

  /** The construction of one item as evidently intended, reading
      `expiration_date` like the other fields. */
  function BuildItem(item: Value): (r: Result<GroceryItem, PyError>)
    ensures r.Ok? ==> ValidGroceryItem(r.value)
    ensures !item.Dict? ==> r == Err(AttributeError)
  {
    match item
    case Dict(d) =>
      var quantity :- IntOf(Get(d, "quantity", Int(1)));
      var weight :- FloatOf(Get(d, "weight", DefaultReceiptWeight));
      (match Lookup(d, "purchase_date")
       case None => Err(KeyError("purchase_date"))
       case Some(purchase) =>
         NewGroceryItem(Get(d, "name", Str("Unknown")), quantity, Some(weight),
                        Get(d, "category", Str("Uncategorized")), purchase, Get(d, "expiration_date", Null)))
    case _ => Err(AttributeError)
  }

  /** The item loop over a prefix of the parsed list, building each item
      with `build`: the items so far, or the first exception. */
  function ReceiptLoop(items: seq<Value>, build: Value -> Result<GroceryItem, PyError>): Result<seq<GroceryItem>, PyError>
    decreases |items|
  {
    if items == [] then Ok([])
    else
      match ReceiptLoop(items[..|items| - 1], build)
      case Err(e) => Err(e)
      case Ok(done) =>
        match CheckItemKeys(items[|items| - 1])
        case Err(e) => Err(e)
        case Ok(item) =>
          match build(item)
          case Err(e) => Err(e)
          case Ok(g) => Ok(done + [g])
  }

  /** The loop of `process_receipt` as the source writes it. */
  function ReceiptItemsAsWritten(items: seq<Value>): Result<seq<GroceryItem>, PyError> {
    ReceiptLoop(items, BuildItemAsWritten)
  }

  /** The loop of `process_receipt` as evidently intended. */
  function ReceiptItems(items: seq<Value>): Result<seq<GroceryItem>, PyError> {
    ReceiptLoop(items, BuildItem)
  }

  /** As written, the loop can only succeed on an empty list. */
  lemma {:induction false} AsWrittenYieldsNoItems(items: seq<Value>)
    ensures ReceiptItemsAsWritten(items).Ok? ==> items == []
    ensures items != [] ==> ReceiptItemsAsWritten(items).Err?
  {
    if items != [] {
      var init := items[..|items| - 1];
      match ReceiptLoop(init, BuildItemAsWritten)
      case Err(_) =>
      case Ok(_) =>
        match CheckItemKeys(items[|items| - 1])
        case Err(_) =>
        case Ok(item) => assert BuildItemAsWritten(item).Err?;
    }
  }

  /** A well-formed receipt line. */
  function MilkLine(): Record {
    [("name", Str("Milk")), ("quantity", Int(2)), ("weight", Float(Finite(1, 1), "1.0")),
     ("category", Str("dairy")), ("purchase_date", Str("2024-01-05")), ("expiration_date", Str("2024-01-12"))]
  }

  lemma MilkLineHasAllKeys()
    ensures CheckItemKeys(Dict(MilkLine())) == Ok(Dict(MilkLine()))
  {
    var d := MilkLine();
    assert HasKey(d, "name") by { assert d[0].0 == "name"; }
    assert HasKey(d, "quantity") by { assert d[1].0 == "quantity"; }
    assert HasKey(d, "weight") by { assert d[2].0 == "weight"; }
    assert HasKey(d, "category") by { assert d[3].0 == "category"; }
    assert HasKey(d, "purchase_date") by { assert d[4].0 == "purchase_date"; }
    assert HasKey(d, "expiration_date") by { assert d[5].0 == "expiration_date"; }
  }

  lemma MilkLineDates()
    ensures ValidateAndFormatDate(Str("2024-01-05")) == Ok("2024-01-05")
    ensures ValidateAndFormatDate(Str("2024-01-12")) == Ok("2024-01-12")
  {
    MilkPurchaseDate();
    MilkExpirationDate();
  }

  lemma MilkPurchaseDate()
    ensures ValidateAndFormatDate(Str("2024-01-05")) == Ok("2024-01-05")
  {
    MilkYearDigits();
    MilkMonthDayDigits();
    var d := Date(2024, 1, 5);
    assert IsRealDate(d);
    assert Strftime(d) == "2024" + "-" + "01" + "-" + "05";
    MilkDateText("2024", "01", "05", "2024-01-05");
    FormattedDateValidates(d);
  }

  lemma MilkExpirationDate()
    ensures ValidateAndFormatDate(Str("2024-01-12")) == Ok("2024-01-12")
  {
    MilkYearDigits();
    MilkMonthDayDigits();
    var d := Date(2024, 1, 12);
    assert IsRealDate(d);
    assert Strftime(d) == "2024" + "-" + "01" + "-" + "12";
    MilkDateText("2024", "01", "12", "2024-01-12");
    FormattedDateValidates(d);
  }

  /** A date text is its three fields joined by dashes. */
  lemma MilkDateText(year: string, month: string, day: string, text: string)
    requires |year| == 4 && |month| == 2 && |day| == 2 && |text| == 10
    requires text[..4] == year && text[4] == '-' && text[5..7] == month && text[7] == '-' && text[8..] == day
    ensures year + "-" + month + "-" + day == text
  {
  }

  lemma MilkYearDigits()
    ensures FixedDigits(2024, 4) == "2024"
  {
    assert FixedDigits(2, 1) == "2";
    assert FixedDigits(20, 2) == "20";
    assert FixedDigits(202, 3) == "202";
  }

  lemma MilkMonthDayDigits()
    ensures FixedDigits(1, 2) == "01" && FixedDigits(5, 2) == "05" && FixedDigits(12, 2) == "12"
  {
    assert FixedDigits(0, 1) == "0";
    assert FixedDigits(1, 1) == "1";
  }

  lemma MilkLineBuilds()
    ensures BuildItemAsWritten(Dict(MilkLine())) == Err(TypeError)
    ensures BuildItem(Dict(MilkLine())) == Ok(GroceryItem("Milk", 2, Finite(1, 1), "dairy", "2024-01-05", "2024-01-12"))
  {
    MilkLineFields();
    MilkLineItem();
  }

  lemma MilkLineFields()
    ensures Get(MilkLine(), "quantity", Int(1)) == Int(2)
    ensures Get(MilkLine(), "weight", DefaultReceiptWeight) == Float(Finite(1, 1), "1.0")
    ensures Lookup(MilkLine(), "purchase_date") == Some(Str("2024-01-05"))
    ensures Get(MilkLine(), "expiration_date", Null) == Str("2024-01-12")
    ensures Get(MilkLine(), "name", Str("Unknown")) == Str("Milk")
    ensures Get(MilkLine(), "category", Str("Uncategorized")) == Str("dairy")
  {
    MilkLookup("name", Str("Milk"));
    MilkLookup("quantity", Int(2));
    MilkLookup("weight", Float(Finite(1, 1), "1.0"));
    MilkLookup("category", Str("dairy"));
    MilkLookup("purchase_date", Str("2024-01-05"));
    MilkLookup("expiration_date", Str("2024-01-12"));
  }

  lemma MilkLookup(key: string, v: Value)
    requires (key, v) in MilkLine()
    ensures Lookup(MilkLine(), key) == Some(v)
  {
    var d := MilkLine();
    var i :| 0 <= i < |d| && d[i] == (key, v);
    assert DistinctKeys(d);
    LookupEntry(d, i);
  }

  lemma MilkLineItem()
    ensures NewGroceryItem(Str("Milk"), 2, Some(Finite(1, 1)), Str("dairy"), Str("2024-01-05"), Str("2024-01-12"))
            == Ok(GroceryItem("Milk", 2, Finite(1, 1), "dairy", "2024-01-05", "2024-01-12"))
  {
    MilkLineDates();
  }

  /** On a well-formed receipt line the intended loop keeps the item, while
      the loop as written fails with TypeError. */
  lemma MilkReceipt()
    ensures ReceiptItemsAsWritten([Dict(MilkLine())]) == Err(TypeError)
    ensures ReceiptItems([Dict(MilkLine())])
            == Ok([GroceryItem("Milk", 2, Finite(1, 1), "dairy", "2024-01-05", "2024-01-12")])
  {
    MilkLineHasAllKeys();
    MilkLineBuilds();
    SingleItem(Dict(MilkLine()), BuildItemAsWritten);
    SingleItem(Dict(MilkLine()), BuildItem);
  }

  /** The loop over a one-item list checks the keys, then builds. */
  lemma SingleItem(x: Value, build: Value -> Result<GroceryItem, PyError>)
    requires CheckItemKeys(x) == Ok(x)
    ensures ReceiptLoop([x], build) == (match build(x) case Err(e) => Err(e) case Ok(g) => Ok([g]))
  {
    assert [x][..0] == [];
    assert ReceiptLoop([], build) == Ok([]);
    assert [x][|[x]| - 1] == x;
    match build(x)
    case Err(_) =>
    case Ok(g) => assert [] + [g] == [g];
  }

  /** The loop succeeds exactly when every item passes the key check and
      builds, and then returns one built item per input, in order. */
  lemma ReceiptLoopOutcome(items: seq<Value>, build: Value -> Result<GroceryItem, PyError>)
    ensures ReceiptLoop(items, build).Ok? <==>
              forall i :: 0 <= i < |items| ==> CheckItemKeys(items[i]).Ok? && build(items[i]).Ok?
    ensures ReceiptLoop(items, build).Ok? ==>
              && |ReceiptLoop(items, build).value| == |items|
              && forall i :: 0 <= i < |items| ==> ReceiptLoop(items, build).value[i] == build(items[i]).value
  {
    ReceiptLoopSucceeds(items, build);
    ReceiptLoopValues(items, build);
  }

  /** When the loop succeeds: every item passed the key check and built. */
  lemma {:induction false} ReceiptLoopSucceeds(items: seq<Value>, build: Value -> Result<GroceryItem, PyError>)
    ensures ReceiptLoop(items, build).Ok? <==>
              forall i :: 0 <= i < |items| ==> CheckItemKeys(items[i]).Ok? && build(items[i]).Ok?
  {
    if items != [] {
      var n := |items| - 1;
      var init := items[..n];
      ReceiptLoopSucceeds(init, build);
      assert items[..n + 1] == items;
      if ReceiptLoop(init, build).Ok? {
        ReceiptLoopStep(items, n, build);
        if CheckItemKeys(items[n]).Ok? && build(items[n]).Ok? {
          forall i | 0 <= i < |items| ensures CheckItemKeys(items[i]).Ok? && build(items[i]).Ok? {
            if i < n {
              assert init[i] == items[i];
            }
          }
        }
      } else {
        var j :| 0 <= j < n && !(CheckItemKeys(init[j]).Ok? && build(init[j]).Ok?);
        assert init[j] == items[j];
      }
    }
  }

  /** What the loop returns when it succeeds: one built item per input, in order. */
  lemma {:induction false} ReceiptLoopValues(items: seq<Value>, build: Value -> Result<GroceryItem, PyError>)
    ensures ReceiptLoop(items, build).Ok? ==>
              && |ReceiptLoop(items, build).value| == |items|
              && forall i :: 0 <= i < |items| ==>
                   build(items[i]).Ok? && ReceiptLoop(items, build).value[i] == build(items[i]).value
  {
    if items != [] {
      var n := |items| - 1;
      var init := items[..n];
      ReceiptLoopValues(init, build);
      assert items[..n + 1] == items;
      if ReceiptLoop(init, build).Ok? {
        ReceiptLoopStep(items, n, build);
      }
      assert forall i :: 0 <= i < n ==> init[i] == items[i];
    }
  }

  /** The intended loop succeeds exactly when every item passes the key
      check and builds, and then returns one valid item per input, in order. */
  lemma ReceiptItemsOutcome(items: seq<Value>)
    ensures ReceiptItems(items).Ok? <==>
              forall i :: 0 <= i < |items| ==> CheckItemKeys(items[i]).Ok? && BuildItem(items[i]).Ok?
    ensures ReceiptItems(items).Ok? ==>
              && |ReceiptItems(items).value| == |items|
              && forall i :: 0 <= i < |items| ==>
                   ReceiptItems(items).value[i] == BuildItem(items[i]).value && ValidGroceryItem(ReceiptItems(items).value[i])
  {
    ReceiptLoopOutcome(items, BuildItem);
  }

  /** An item missing a required key aborts the whole call with ValueError,
      unless an earlier item already failed. */
  lemma {:induction false} MissingKeyAborts(items: seq<Value>, j: nat)
    requires j < |items| && CheckItemKeys(items[j]).Err?
    requires forall i :: 0 <= i < j ==> CheckItemKeys(items[i]).Ok? && BuildItem(items[i]).Ok?
    ensures ReceiptItems(items) == Err(CheckItemKeys(items[j]).error)
  {
    var init := items[..|items| - 1];
    if j == |items| - 1 {
      ReceiptItemsOutcome(init);
      assert forall i :: 0 <= i < |init| ==> init[i] == items[i];
    } else {
      assert init[j] == items[j];
      assert forall i :: 0 <= i < j ==> init[i] == items[i];
      MissingKeyAborts(init, j);
    }
  }

  /** Once the loop has failed, the remaining items do not matter. */
  lemma {:induction false} ReceiptErrorPersists(items: seq<Value>, k: nat)
    requires k <= |items| && ReceiptItems(items[..k]).Err?
    ensures ReceiptItems(items) == ReceiptItems(items[..k])
  {
    if k < |items| {
      assert items[..|items| - 1][..k] == items[..k];
      ReceiptErrorPersists(items[..|items| - 1], k);
    } else {
      assert items[..k] == items;
    }
  }

  /** One more iteration of the loop: the key check of the next item, then
      its construction, decide whether the loop raises or appends. */
  lemma ReceiptLoopStep(items: seq<Value>, i: nat, build: Value -> Result<GroceryItem, PyError>)
    requires i < |items| && ReceiptLoop(items[..i], build).Ok?
    ensures CheckItemKeys(items[i]).Err? ==>
              ReceiptLoop(items[..i + 1], build) == Err(CheckItemKeys(items[i]).error)
    ensures CheckItemKeys(items[i]).Ok? && build(items[i]).Err? ==>
              ReceiptLoop(items[..i + 1], build) == Err(build(items[i]).error)
    ensures CheckItemKeys(items[i]).Ok? && build(items[i]).Ok? ==>
              ReceiptLoop(items[..i + 1], build) == Ok(ReceiptLoop(items[..i], build).value + [build(items[i]).value])
  {
    assert items[..i + 1][..i] == items[..i];
  }

  /** The `for item in parsed_data` loop of `process_receipt`, with the item
      construction of line 116 corrected to `item.get("expiration_date")`
      (`BuildItem`). As written, that line raises TypeError for every item
      that reaches it, so the loop succeeds only on an empty list
      (`AsWrittenYieldsNoItems`). */
  method ProcessReceiptItems(items: seq<Value>) returns (r: Result<seq<GroceryItem>, PyError>)
    ensures r == ReceiptItems(items)
  {
    var processed: seq<GroceryItem> := [];
    var i := 0;
    while i < |items|
      invariant 0 <= i <= |items|
      invariant ReceiptItems(items[..i]) == Ok(processed)
    {
      ReceiptLoopStep(items, i, BuildItem);
      var checked := CheckItemKeys(items[i]);
      if checked.Err? {
        ReceiptErrorPersists(items, i + 1);
        return Err(checked.error);
      }
      var built := BuildItem(checked.value);
      if built.Err? {
        ReceiptErrorPersists(items, i + 1);
        return Err(built.error);
      }
      processed := processed + [built.value];
      i := i + 1;
    }
    assert items[..i] == items;
    return Ok(processed);
  }

  const NotAListMessage := "Expected a list of items in the JSON response."

  /** `process_receipt`. Whether the file exists, the model's reply (None
      when the call raised) and the JSON decoder are inputs. Only a missing
      file and undecodable JSON are wrapped in RuntimeError; every other
      exception propagates unchanged. The items are built by the corrected
      construction of `ProcessReceiptItems`, not by line 116 as written. */
  method ProcessReceipt(path: Value, fileFound: bool, reply: Option<string>,
                        jsonLoads: string -> Result<Value, string>)
    returns (r: Result<seq<GroceryItem>, PyError>)
    ensures CheckImagePath(path).Err? ==> r == Err(ValueError(InvalidPathMessage))
    ensures CheckImagePath(path).Ok? && !fileFound ==> r == Err(RuntimeError(FileNotFoundError))
    ensures CheckImagePath(path).Ok? && fileFound && reply.None? ==> r == Err(ForeignError)
    ensures CheckImagePath(path).Ok? && fileFound && reply.Some? ==>
              var parsed := jsonLoads(UnwrapReply(reply.value));
              && (parsed.Err? ==> r == Err(RuntimeError(JsonDecodeError)))
              && (parsed.Ok? && !parsed.value.List? ==> r == Err(RuntimeFailure(NotAListMessage)))
              && (parsed.Ok? && parsed.value.List? ==> r == ReceiptItems(parsed.value.items))
              && (parsed == Ok(List([])) ==> r == Ok([]))
    ensures r.Ok? ==> forall i :: 0 <= i < |r.value| ==> ValidGroceryItem(r.value[i])
  {
    var checked := CheckImagePath(path);
    if checked.Err? {
      return Err(checked.error);
    }
    if !fileFound {
      return Err(RuntimeError(FileNotFoundError));
    }
    if reply.None? {
      return Err(ForeignError);
    }
    var parsed := jsonLoads(UnwrapReply(reply.value));
    if parsed.Err? {
      return Err(RuntimeError(JsonDecodeError));
    }
    if !parsed.value.List? {
      return Err(RuntimeFailure(NotAListMessage));
    }
    r := ProcessReceiptItems(parsed.value.items);
    ReceiptItemsOutcome(parsed.value.items);
  }

  // ================================================================ receipts table

  /** A row of the receipts table. */
  datatype ReceiptRow = ReceiptRow(id: int, name: string, quantity: int, weight: Value, category: string,
                                   purchaseDate: string, expirationDate: string)

  /** `UPDATE receipts SET quantity = ? WHERE id = ?`. */
  function WithQuantity(rows: seq<ReceiptRow>, itemId: int, quantity: int): (r: seq<ReceiptRow>)
    ensures |r| == |rows|
  {
    seq(|rows|, i requires 0 <= i < |rows| => if rows[i].id == itemId then rows[i].(quantity := quantity) else rows[i])
  }

  /** `DELETE FROM receipts WHERE id = ?`. */
  function WithoutReceipt(rows: seq<ReceiptRow>, itemId: int): seq<ReceiptRow> {
    Filter(rows, (row: ReceiptRow) => row.id != itemId)
  }

  /** The update changes the quantity of the row with the id and nothing else. */
  lemma UpdateChangesOnlyTheRow(rows: seq<ReceiptRow>, itemId: int, quantity: int)
    ensures var r := WithQuantity(rows, itemId, quantity);
            forall i :: 0 <= i < |rows| ==>
              && r[i].id == rows[i].id
              && (rows[i].id != itemId ==> r[i] == rows[i])
              && (rows[i].id == itemId ==> r[i].quantity == quantity && r[i].(quantity := rows[i].quantity) == rows[i])
    ensures (forall i :: 0 <= i < |rows| ==> rows[i].id != itemId) ==> WithQuantity(rows, itemId, quantity) == rows
  {
  }

  /** With the ids unique, the delete removes exactly the row with the id,
      or nothing when there is none. */
  lemma DeleteRemovesOnlyTheRow(rows: seq<ReceiptRow>, itemId: int)
    requires UniqueKeys(rows, (row: ReceiptRow) => row.id)
    ensures (forall i :: 0 <= i < |rows| ==> rows[i].id != itemId) ==> WithoutReceipt(rows, itemId) == rows
    ensures forall k :: 0 <= k < |rows| && rows[k].id == itemId ==>
              WithoutReceipt(rows, itemId) == rows[..k] + rows[k + 1..]
  {
    var keep := (row: ReceiptRow) => row.id != itemId;
    if forall i :: 0 <= i < |rows| ==> rows[i].id != itemId {
      FilterKeepsAll(rows, keep);
    }
    forall k | 0 <= k < |rows| && rows[k].id == itemId
      ensures WithoutReceipt(rows, itemId) == rows[..k] + rows[k + 1..]
    {
      forall i | 0 <= i < |rows| && i != k ensures keep(rows[i]) {
        assert rows[i].id != rows[k].id;
      }
      FilterDropsOne(rows, keep, k);
    }
  }

  /** The receipts table, held in memory. */
  class ReceiptTable {
    var rows: seq<ReceiptRow>

    /** `id` is the table's primary key. */
    predicate Valid()
      reads this
    {
      UniqueKeys(rows, (row: ReceiptRow) => row.id)
    }

    constructor ()
      ensures Valid() && rows == []
    {
      rows := [];
    }

    /** `update_quantity(item_id, new_quantity)`. */
    method UpdateQuantity(itemId: int, newQuantity: int)
      requires Valid()
      modifies this
      ensures Valid()
      ensures rows == WithQuantity(old(rows), itemId, newQuantity)
    {
      rows := WithQuantity(rows, itemId, newQuantity);
    }

    /** `delete_item(item_id)`. */
    method DeleteItem(itemId: int)
      requires Valid()
      modifies this
      ensures Valid()
      ensures rows == WithoutReceipt(old(rows), itemId)
    {
      FilterKeepsUniqueKeys(rows, (row: ReceiptRow) => row.id != itemId, (row: ReceiptRow) => row.id);
      rows := WithoutReceipt(rows, itemId);
    }

    /** `delete_all_items()`. */
    method DeleteAllItems()
      modifies this
      ensures Valid()
      ensures rows == []
    {
      rows := [];
    }
  }
}
