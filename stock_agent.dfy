/** The stock agent: it turns the JSON a vision model extracted from a photo
    of groceries into validated `StockData` records, and keeps three tables
    per user: the stock items, the images they came from, and one
    `all_stock` row per extracted batch. */
module StockAgent {
  import opened Wrappers
  import opened Text
  import opened Values
  import opened Rows
  import opened ImageExtraction

  // ================================================================ extraction

  /** A record that passed `StockData` validation, as `model_dump()` returns it. */
  datatype StockData = StockData(name: string, quantity: int, weight: PyFloat, category: string, shelfLife: int)

  /** The dictionary built for one extracted item, before validation: the
      numeric fields are already converted, name and category are whatever
      the model sent. */
  datatype MappedItem = MappedItem(name: Value, quantity: int, weight: PyFloat, category: Value, shelfLife: int)

  const DefaultQuantity: Value := Int(1)
  const DefaultWeight: Value := Float(Finite(1, 1), "1.0")

  /** Building `mapped_item` from one element of the parsed reply. The
      conversions run in the order the dictionary display lists them, so the
      first that fails decides the error. An element that is not a dict has
      no `get`, which raises AttributeError. */
  function MapItem(item: Value): (r: Result<MappedItem, PyError>)
    ensures !item.Dict? ==> r == Err(AttributeError)
    ensures item.Dict? && r.Ok? ==>
              r.value.name == Get(item.entries, "name", Null)
              && r.value.category == Get(item.entries, "category", Null)
              && Ok(r.value.quantity) == IntOf(Get(item.entries, "quantity", DefaultQuantity))
              && Ok(r.value.weight) == FloatOf(Get(item.entries, "weight", DefaultWeight))
              && Ok(r.value.shelfLife) == IntOf(Get(item.entries, "shelf_life", Null))
    ensures item.Dict? ==>
              (r.Ok? <==> IntOf(Get(item.entries, "quantity", DefaultQuantity)).Ok?
                          && FloatOf(Get(item.entries, "weight", DefaultWeight)).Ok?
                          && IntOf(Get(item.entries, "shelf_life", Null)).Ok?)
    ensures item.Dict? && IntOf(Get(item.entries, "quantity", DefaultQuantity)).Err? ==>
              r == Err(IntOf(Get(item.entries, "quantity", DefaultQuantity)).error)
    ensures item.Dict? && IntOf(Get(item.entries, "quantity", DefaultQuantity)).Ok?
            && FloatOf(Get(item.entries, "weight", DefaultWeight)).Err? ==>
              r == Err(FloatOf(Get(item.entries, "weight", DefaultWeight)).error)
    ensures item.Dict? && IntOf(Get(item.entries, "quantity", DefaultQuantity)).Ok?
            && FloatOf(Get(item.entries, "weight", DefaultWeight)).Ok?
            && IntOf(Get(item.entries, "shelf_life", Null)).Err? ==>
              r == Err(IntOf(Get(item.entries, "shelf_life", Null)).error)
  {
    match item
    case Dict(d) =>
      var quantity :- IntOf(Get(d, "quantity", DefaultQuantity));
      var weight :- FloatOf(Get(d, "weight", DefaultWeight));
      var shelfLife :- IntOf(Get(d, "shelf_life", Null));
      Ok(MappedItem(Get(d, "name", Null), quantity, weight, Get(d, "category", Null), shelfLife))
    case _ => Err(AttributeError)
  }

  /** `StockData(**mapped_item)`: the numeric fields are already of the
      declared types, so validation fails exactly when name or category is
      not a string. */
  function Validate(m: MappedItem): (r: Option<StockData>)
    ensures r.Some? <==> m.name.Str? && m.category.Str?
    ensures r.Some? ==> r.value.name == m.name.s && r.value.category == m.category.s
    ensures r.Some? ==> r.value.quantity == m.quantity && r.value.weight == m.weight
                        && r.value.shelfLife == m.shelfLife
  {
    if m.name.Str? && m.category.Str?
    then Some(StockData(m.name.s, m.quantity, m.weight, m.category.s, m.shelfLife))
    else None
  }

  /** What one mapped item contributes to `processed_data`: itself if it
      validates, nothing if it does not. */
  function Kept(m: MappedItem): seq<StockData> {
    match Validate(m)
    case Some(d) => [d]
    case None => []
  }

  /** The outcome of the item loop over a prefix of the parsed items: the
      validated records so far, or the first conversion error. */
  function ProcessItems(items: seq<Value>): Result<seq<StockData>, PyError>
    decreases |items|
  {
    if items == [] then Ok([])
    else
      match ProcessItems(items[..|items| - 1])
      case Err(e) => Err(e)
      case Ok(done) =>
        match MapItem(items[|items| - 1])
        case Err(e) => Err(e)
        case Ok(m) => Ok(done + Kept(m))
  }

  /** The records that survive validation, read from the front. */
  function Survivors(items: seq<Value>): seq<StockData> {
    if items == [] then []
    else
      (match MapItem(items[0]) case Ok(m) => Kept(m) case Err(_) => [])
      + Survivors(items[1..])
  }

  lemma {:induction false} SurvivorsSnoc(items: seq<Value>, x: Value)
    ensures Survivors(items + [x])
            == Survivors(items) + (match MapItem(x) case Ok(m) => Kept(m) case Err(_) => [])
  {
    if items == [] {
      assert items + [x] == [x];
      assert [x][1..] == [];
    } else {
      assert (items + [x])[0] == items[0];
      assert (items + [x])[1..] == items[1..] + [x];
      SurvivorsSnoc(items[1..], x);
    }
  }

  /** The loop succeeds exactly when every item converts, and then returns
      the items that validate, in input order. */
  lemma {:induction false} ProcessItemsOutcome(items: seq<Value>)
    ensures ProcessItems(items).Ok? <==> forall i :: 0 <= i < |items| ==> MapItem(items[i]).Ok?
    ensures ProcessItems(items).Ok? ==> ProcessItems(items).value == Survivors(items)
  {
    if items != [] {
      var n := |items| - 1;
      var init := items[..n];
      SplitLast(items);
      ProcessItemsOutcome(init);
      SurvivorsSnoc(init, items[n]);
      assert forall i :: 0 <= i < n ==> init[i] == items[i];
    }
  }

  /** The first item whose conversion fails aborts the loop with that error. */
  lemma {:induction false} FirstConversionErrorAborts(items: seq<Value>, j: nat)
    requires j < |items| && MapItem(items[j]).Err?
    requires forall i :: 0 <= i < j ==> MapItem(items[i]).Ok?
    ensures ProcessItems(items) == Err(MapItem(items[j]).error)
  {
    var init := items[..|items| - 1];
    if j == |items| - 1 {
      ProcessItemsOutcome(init);
      assert forall i :: 0 <= i < |init| ==> init[i] == items[i];
    } else {
      assert init[j] == items[j];
      assert forall i :: 0 <= i < j ==> init[i] == items[i];
      FirstConversionErrorAborts(init, j);
    }
  }

  /** An item that converts but fails validation is skipped. */
  lemma SkippedItem(items: seq<Value>, x: Value)
    requires MapItem(x).Ok? && Validate(MapItem(x).value).None?
    ensures ProcessItems(items + [x]) == ProcessItems(items)
  {
    var extended := items + [x];
    assert extended[..|extended| - 1] == items;
    assert extended[|extended| - 1] == x;
    assert Kept(MapItem(x).value) == [];
    match ProcessItems(items)
    case Err(_) =>
    case Ok(done) =>
      assert done + [] == done;
  }

  /** An item naming only name, category and shelf life gets quantity 1 and
      weight 1.0. */
  lemma DefaultsApplied(name: string, category: string, shelfLife: int)
    ensures var item := Dict([("name", Str(name)), ("category", Str(category)), ("shelf_life", Int(shelfLife))]);
            ProcessItems([item]) == Ok([StockData(name, 1, Finite(1, 1), category, shelfLife)])
  {
    var d := [("name", Str(name)), ("category", Str(category)), ("shelf_life", Int(shelfLife))];
    assert !HasKey(d, "quantity") && !HasKey(d, "weight");
    assert HasKey(d, "shelf_life") by { assert d[2].0 == "shelf_life"; }
    assert HasKey(d, "name") by { assert d[0].0 == "name"; }
    assert HasKey(d, "category") by { assert d[1].0 == "category"; }
    assert Get(d, "shelf_life", Null) == Int(shelfLife);
    assert Get(d, "name", Null) == Str(name);
    assert Get(d, "category", Null) == Str(category);
    assert MapItem(Dict(d)) == Ok(MappedItem(Str(name), 1, Finite(1, 1), Str(category), shelfLife));
    assert [Dict(d)][..0] == [];
    assert Kept(MappedItem(Str(name), 1, Finite(1, 1), Str(category), shelfLife))
           == [StockData(name, 1, Finite(1, 1), category, shelfLife)];
    assert [] + [StockData(name, 1, Finite(1, 1), category, shelfLife)]
           == [StockData(name, 1, Finite(1, 1), category, shelfLife)];
  }

  /** An item without `shelf_life` cannot be converted: `int(None)` raises
      TypeError, which aborts the whole call. */
  lemma MissingShelfLifeFails(d: Record)
    requires !HasKey(d, "shelf_life")
    requires IntOf(Get(d, "quantity", DefaultQuantity)).Ok?
    requires FloatOf(Get(d, "weight", DefaultWeight)).Ok?
    ensures MapItem(Dict(d)) == Err(TypeError)
  {
  }

  /** The `for item in processed_data` loop, appending each validated record. */
  method MapExtractedItems(items: seq<Value>) returns (r: Result<seq<StockData>, PyError>)
    ensures r == ProcessItems(items)
  {
    var processed: seq<StockData> := [];
    var i := 0;
    while i < |items|
      invariant 0 <= i <= |items|
      invariant ProcessItems(items[..i]) == Ok(processed)
    {
      assert items[..i + 1][..i] == items[..i];
      var mapped := MapItem(items[i]);
      if mapped.Err? {
        ErrorPersists(items, i + 1);
        return Err(mapped.error);
      }
      processed := processed + Kept(mapped.value);
      i := i + 1;
    }
    assert items[..i] == items;
    return Ok(processed);
  }

  /** Once the loop has failed, the remaining items do not matter. */
  lemma {:induction false} ErrorPersists(items: seq<Value>, k: nat)
    requires k <= |items| && ProcessItems(items[..k]).Err?
    ensures ProcessItems(items) == ProcessItems(items[..k])
  {
    if k < |items| {
      assert items[..|items| - 1][..k] == items[..k];
      ErrorPersists(items[..|items| - 1], k);
    } else {
      assert items[..k] == items;
    }
  }

  /** What `for item in parsed_data` iterates over: a list's elements, a
      dict's keys, a string's characters; any other JSON value is not
      iterable. */
  function IterationItems(parsed: Value): (r: Result<seq<Value>, PyError>)
    ensures parsed.List? ==> r == Ok(parsed.items)
    ensures parsed.Dict? ==> r.Ok? && |r.value| == |parsed.entries|
    ensures parsed.Str? ==> r.Ok? && |r.value| == |parsed.s|
    ensures r.Ok? && !parsed.List? ==> forall i :: 0 <= i < |r.value| ==> r.value[i].Str?
    ensures r.Err? <==> !(parsed.List? || parsed.Dict? || parsed.Str?)
    ensures r.Err? ==> r.error == TypeError
    ensures parsed.Dict? ==> r.Ok? && forall i :: 0 <= i < |parsed.entries| ==> r.value[i] == Str(parsed.entries[i].0)
    ensures parsed.Str? ==> r.Ok? && forall i :: 0 <= i < |parsed.s| ==> r.value[i] == Str([parsed.s[i]])
  {
    match parsed
    case List(items) => Ok(items)
    case Dict(d) => Ok(seq(|d|, i requires 0 <= i < |d| => Str(d[i].0)))
    case Str(s) => Ok(seq(|s|, i requires 0 <= i < |s| => Str([s[i]])))
    case _ => Err(TypeError)
  }

  /** Only a list can yield records: iterating a non-empty dict or string
      hands `get` a string, which fails. */
  lemma OnlyListsYieldRecords(parsed: Value)
    requires IterationItems(parsed).Ok? && !parsed.List?
    ensures IterationItems(parsed).value != [] ==> ProcessItems(IterationItems(parsed).value).Err?
    ensures IterationItems(parsed).value == [] ==> ProcessItems(IterationItems(parsed).value) == Ok([])
  {
    var items := IterationItems(parsed).value;
    if items != [] {
      FirstConversionErrorAborts(items, 0);
    }
  }

  const DecodeErrorPrefix := "Failed to decode JSON from the response: "

  /** `process_stock_image`. The file system, the vision model and the JSON
      decoder are inputs: whether the file exists, the model's reply (None
      when the call raised), and `jsonLoads`, which returns the parsed value
      or the decoder's error text. */
  method ProcessStockImage(path: Value, fileFound: bool, reply: Option<string>,
                           jsonLoads: string -> Result<Value, string>)
    returns (r: Result<seq<StockData>, PyError>)
    ensures CheckImagePath(path).Err? ==> r == Err(ValueError(InvalidPathMessage))
    ensures CheckImagePath(path).Ok? && !fileFound ==> r == Err(FileNotFoundError)
    ensures CheckImagePath(path).Ok? && fileFound && reply.None? ==> r == Err(RuntimeError(ForeignError))
    ensures CheckImagePath(path).Ok? && fileFound && reply.Some? && jsonLoads(UnwrapReply(reply.value)).Err? ==>
              r == Err(ValueError(DecodeErrorPrefix + jsonLoads(UnwrapReply(reply.value)).error))
    ensures r.Ok? ==>
              && CheckImagePath(path).Ok? && fileFound && reply.Some?
              && jsonLoads(UnwrapReply(reply.value)).Ok?
              && var parsed := jsonLoads(UnwrapReply(reply.value)).value;
                 IterationItems(parsed).Ok? && r.value == Survivors(IterationItems(parsed).value)
    ensures (r.Err? && CheckImagePath(path).Ok? && fileFound && reply.Some?
             && jsonLoads(UnwrapReply(reply.value)).Ok?) ==> r.error.RuntimeError?
    ensures CheckImagePath(path).Ok? && fileFound && reply.Some? && jsonLoads(UnwrapReply(reply.value)).Ok? ==>
              var parsed := jsonLoads(UnwrapReply(reply.value)).value;
              (r.Ok? <==> IterationItems(parsed).Ok?
                          && forall i :: 0 <= i < |IterationItems(parsed).value| ==> MapItem(IterationItems(parsed).value[i]).Ok?)
    ensures CheckImagePath(path).Ok? && fileFound && reply.Some? && jsonLoads(UnwrapReply(reply.value)).Ok? ==>
              var parsed := jsonLoads(UnwrapReply(reply.value)).value;
              && (IterationItems(parsed).Err? ==> r == Err(RuntimeError(IterationItems(parsed).error)))
              && (IterationItems(parsed).Ok? && ProcessItems(IterationItems(parsed).value).Err? ==>
                    r == Err(RuntimeError(ProcessItems(IterationItems(parsed).value).error)))
  {
    var checked := CheckImagePath(path);
    if checked.Err? {
      return Err(checked.error);
    }
    if !fileFound {
      return Err(FileNotFoundError);
    }
    if reply.None? {
      return Err(RuntimeError(ForeignError));
    }
    var parsed := jsonLoads(UnwrapReply(reply.value));
    if parsed.Err? {
      return Err(ValueError(DecodeErrorPrefix + parsed.error));
    }
    var items := IterationItems(parsed.value);
    if items.Err? {
      return Err(RuntimeError(items.error));
    }
    ProcessItemsOutcome(items.value);
    var mapped := MapExtractedItems(items.value);
    if mapped.Err? {
      return Err(RuntimeError(mapped.error));
    }
    return mapped;
  }

  /** The checks at the top of `save_to_db`, made before anything is written:
      the list of records to insert, or the ValueError raised. */
  function SaveToDbCheck(data: Value): (r: Result<seq<Value>, PyError>)
    ensures r.Ok? <==> data.List? && data.items != []
    ensures r.Ok? ==> r.value == data.items
    ensures !Truthy(data) ==> r == Err(ValueError("No data provided to save."))
    ensures Truthy(data) && !data.List? ==> r == Err(ValueError("Data must be a list of dictionaries."))
  {
    if !Truthy(data) then Err(ValueError("No data provided to save."))
    else if !data.List? then Err(ValueError("Data must be a list of dictionaries."))
    else Ok(data.items)
  }

  // ================================================================ tables

  /** A row of the stock table (its `created_at` column is not modelled). */
  datatype StockRow = StockRow(id: int, name: string, quantity: int, weight: Value,
                               category: string, shelfLife: int, userId: int, stockId: int)

  /** A row of the stock images table. */
  datatype ImageRow = ImageRow(id: int, imagePath: string, userId: int, stockId: int)

  /** A row of `all_stock`: one per saved batch; its `id` is the batch's stock id. */
  datatype AllStockRow = AllStockRow(id: int, totalItems: int, userId: int)

  predicate IsItem(row: StockRow, userId: int, itemId: int) {
    row.id == itemId && row.userId == userId
  }

  predicate InBatch(row: StockRow, userId: int, stockId: int) {
    row.stockId == stockId && row.userId == userId
  }

  /** `SELECT stock_id ... WHERE id = %s AND user_id = %s` with `fetchone()`. */
  function FindItem(stock: seq<StockRow>, userId: int, itemId: int): Option<nat> {
    FirstMatch(stock, (row: StockRow) => IsItem(row, userId, itemId))
  }

  /** `DELETE FROM stock WHERE id = %s AND user_id = %s`. */
  function WithoutItem(stock: seq<StockRow>, userId: int, itemId: int): seq<StockRow> {
    Filter(stock, (row: StockRow) => !IsItem(row, userId, itemId))
  }

  /** `SELECT COUNT(*) FROM stock WHERE stock_id = %s AND user_id = %s`. */
  function BatchSize(stock: seq<StockRow>, userId: int, stockId: int): nat {
    |StockOfBatch(stock, userId, stockId)|
  }

  /** `DELETE FROM stockimages WHERE stock_id = %s AND user_id = %s`. */
  function WithoutBatchImages(images: seq<ImageRow>, userId: int, stockId: int): seq<ImageRow> {
    Filter(images, (row: ImageRow) => !(row.stockId == stockId && row.userId == userId))
  }

  /** `DELETE FROM all_stock WHERE id = %s AND user_id = %s`. */
  function WithoutBatch(allStock: seq<AllStockRow>, userId: int, stockId: int): seq<AllStockRow> {
    Filter(allStock, (row: AllStockRow) => !(row.id == stockId && row.userId == userId))
  }

  function StockNotOfUser(stock: seq<StockRow>, userId: int): seq<StockRow> {
    Filter(stock, (row: StockRow) => row.userId != userId)
  }

  function ImagesNotOfUser(images: seq<ImageRow>, userId: int): seq<ImageRow> {
    Filter(images, (row: ImageRow) => row.userId != userId)
  }

  function AllStockNotOfUser(allStock: seq<AllStockRow>, userId: int): seq<AllStockRow> {
    Filter(allStock, (row: AllStockRow) => row.userId != userId)
  }

  /** `SELECT ... FROM stock WHERE user_id = %s`. */
  function StockOfUser(stock: seq<StockRow>, userId: int): seq<StockRow> {
    Filter(stock, (row: StockRow) => row.userId == userId)
  }

  /** `SELECT ... FROM stock WHERE user_id = %s AND stock_id = %s`. */
  function StockOfBatch(stock: seq<StockRow>, userId: int, stockId: int): seq<StockRow> {
    Filter(stock, (row: StockRow) => InBatch(row, userId, stockId))
  }

  /** The three tables of the stock agent, held in memory. */
  class StockTables {
    var stock: seq<StockRow>
    var stockImages: seq<ImageRow>
    var allStock: seq<AllStockRow>

    /** Every table's `id` is its primary key. */
    predicate Valid()
      reads this
    {
      && UniqueKeys(stock, (row: StockRow) => row.id)
      && UniqueKeys(stockImages, (row: ImageRow) => row.id)
      && UniqueKeys(allStock, (row: AllStockRow) => row.id)
    }

    constructor ()
      ensures Valid()
      ensures stock == [] && stockImages == [] && allStock == []
    {
      stock, stockImages, allStock := [], [], [];
    }

    /** `delete_stock(user_id, item_id)`: remove the user's item; if that
        leaves its batch without items, remove the batch's images and its
        `all_stock` row too. */
    method DeleteStock(userId: int, itemId: int)
      requires Valid()
      modifies this
      ensures Valid()
      ensures FindItem(old(stock), userId, itemId).None? ==>
                stock == old(stock) && stockImages == old(stockImages) && allStock == old(allStock)
      ensures FindItem(old(stock), userId, itemId).Some? ==>
                var stockId := old(stock)[FindItem(old(stock), userId, itemId).value].stockId;
                && stock == WithoutItem(old(stock), userId, itemId)
                && (BatchSize(stock, userId, stockId) == 0 ==>
                      stockImages == WithoutBatchImages(old(stockImages), userId, stockId)
                      && allStock == WithoutBatch(old(allStock), userId, stockId))
                && (BatchSize(stock, userId, stockId) != 0 ==>
                      stockImages == old(stockImages) && allStock == old(allStock))
    {
      var found := FindItem(stock, userId, itemId);
      if found.None? {
        return;
      }
      var stockId := stock[found.value].stockId;
      FilterKeepsUniqueKeys(stock, (row: StockRow) => !IsItem(row, userId, itemId), (row: StockRow) => row.id);
      stock := WithoutItem(stock, userId, itemId);
      var remaining := BatchSize(stock, userId, stockId);
      if remaining == 0 {
        FilterKeepsUniqueKeys(stockImages, (row: ImageRow) => !(row.stockId == stockId && row.userId == userId),
                              (row: ImageRow) => row.id);
        FilterKeepsUniqueKeys(allStock, (row: AllStockRow) => !(row.id == stockId && row.userId == userId),
                              (row: AllStockRow) => row.id);
        stockImages := WithoutBatchImages(stockImages, userId, stockId);
        allStock := WithoutBatch(allStock, userId, stockId);
      }
    }

    /** `delete_all_stock(user_id)`: remove every row of the user from all
        three tables. */
    method DeleteAllStock(userId: int)
      requires Valid()
      modifies this
      ensures Valid()
      ensures stock == StockNotOfUser(old(stock), userId)
      ensures stockImages == ImagesNotOfUser(old(stockImages), userId)
      ensures allStock == AllStockNotOfUser(old(allStock), userId)
    {
      FilterKeepsUniqueKeys(stock, (row: StockRow) => row.userId != userId, (row: StockRow) => row.id);
      FilterKeepsUniqueKeys(stockImages, (row: ImageRow) => row.userId != userId, (row: ImageRow) => row.id);
      FilterKeepsUniqueKeys(allStock, (row: AllStockRow) => row.userId != userId, (row: AllStockRow) => row.id);
      stock := StockNotOfUser(stock, userId);
      stockImages := ImagesNotOfUser(stockImages, userId);
      allStock := AllStockNotOfUser(allStock, userId);
    }
  }

  /** With the ids unique, deleting a found item removes exactly that row. */
  lemma DeleteRemovesExactlyTheItem(stock: seq<StockRow>, userId: int, itemId: int)
    requires UniqueKeys(stock, (row: StockRow) => row.id)
    requires FindItem(stock, userId, itemId).Some?
    ensures var k := FindItem(stock, userId, itemId).value;
            WithoutItem(stock, userId, itemId) == stock[..k] + stock[k + 1..]
  {
    var k := FindItem(stock, userId, itemId).value;
    var keep := (row: StockRow) => !IsItem(row, userId, itemId);
    forall i | 0 <= i < |stock| && i != k ensures keep(stock[i]) {
      assert stock[i].id != stock[k].id;
    }
    FilterDropsOne(stock, keep, k);
  }

  /** `delete_stock` never touches another user's rows. */
  lemma DeleteStockSparesOtherUsers(stock: seq<StockRow>, images: seq<ImageRow>, allStock: seq<AllStockRow>,
                                    userId: int, itemId: int, stockId: int)
    ensures forall row :: row in stock && row.userId != userId ==> row in WithoutItem(stock, userId, itemId)
    ensures forall row :: row in images && row.userId != userId ==> row in WithoutBatchImages(images, userId, stockId)
    ensures forall row :: row in allStock && row.userId != userId ==> row in WithoutBatch(allStock, userId, stockId)
  {
    FilterMembers(stock, (row: StockRow) => !IsItem(row, userId, itemId));
    FilterMembers(images, (row: ImageRow) => !(row.stockId == stockId && row.userId == userId));
    FilterMembers(allStock, (row: AllStockRow) => !(row.id == stockId && row.userId == userId));
  }

  /** The cascade removes exactly the batch's images and its `all_stock` row. */
  lemma CascadeRemovesTheBatch(images: seq<ImageRow>, allStock: seq<AllStockRow>, userId: int, stockId: int)
    ensures forall row :: row in WithoutBatchImages(images, userId, stockId) <==>
              row in images && !(row.stockId == stockId && row.userId == userId)
    ensures forall row :: row in WithoutBatch(allStock, userId, stockId) <==>
              row in allStock && !(row.id == stockId && row.userId == userId)
  {
    FilterMembers(images, (row: ImageRow) => !(row.stockId == stockId && row.userId == userId));
    FilterMembers(allStock, (row: AllStockRow) => !(row.id == stockId && row.userId == userId));
  }

  /** `delete_all_stock` removes the user's rows and only those. */
  lemma DeleteAllStockRemovesUser(stock: seq<StockRow>, images: seq<ImageRow>, allStock: seq<AllStockRow>, userId: int)
    ensures forall row :: row in StockNotOfUser(stock, userId) <==> row in stock && row.userId != userId
    ensures forall row :: row in ImagesNotOfUser(images, userId) <==> row in images && row.userId != userId
    ensures forall row :: row in AllStockNotOfUser(allStock, userId) <==> row in allStock && row.userId != userId
  {
    FilterMembers(stock, (row: StockRow) => row.userId != userId);
    FilterMembers(images, (row: ImageRow) => row.userId != userId);
    FilterMembers(allStock, (row: AllStockRow) => row.userId != userId);
  }

  // ================================================================ queries

  /** The dictionary `fetch_all_stockitems` and `fetch_stock` build per row. */
  function ItemRecord(row: StockRow): Record {
    [("id", Int(row.id)), ("name", Str(row.name)), ("quantity", Int(row.quantity)),
     ("weight", row.weight), ("category", Str(row.category)), ("shelf_life", Int(row.shelfLife))]
  }

  function Records(rows: seq<StockRow>): (r: seq<Record>)
    ensures |r| == |rows| && forall i :: 0 <= i < |rows| ==> r[i] == ItemRecord(rows[i])
  {
    seq(|rows|, i requires 0 <= i < |rows| => ItemRecord(rows[i]))
  }

  /** `fetch_all_stockitems(user_id)`. */
  function FetchAllStockItems(stock: seq<StockRow>, userId: int): seq<Record> {
    Records(StockOfUser(stock, userId))
  }

  /** `fetch_stock(user_id, stock_id)`. */
  function FetchStock(stock: seq<StockRow>, userId: int, stockId: int): seq<Record> {
    Records(StockOfBatch(stock, userId, stockId))
  }

  /** The fetch queries return one record per matching row, in table order. */
  lemma FetchedRecordsAreTheUsersRows(stock: seq<StockRow>, userId: int, stockId: int)
    ensures forall row :: row in stock && row.userId == userId ==> ItemRecord(row) in FetchAllStockItems(stock, userId)
    ensures forall rec :: rec in FetchAllStockItems(stock, userId) ==>
              exists row :: row in stock && row.userId == userId && rec == ItemRecord(row)
    ensures forall rec :: rec in FetchStock(stock, userId, stockId) ==>
              exists row :: row in stock && InBatch(row, userId, stockId) && rec == ItemRecord(row)
    ensures forall row :: row in stock && InBatch(row, userId, stockId) ==> ItemRecord(row) in FetchStock(stock, userId, stockId)
  {
    var mine := StockOfUser(stock, userId);
    var batch := StockOfBatch(stock, userId, stockId);
    FilterMembers(stock, (row: StockRow) => row.userId == userId);
    FilterMembers(stock, (row: StockRow) => InBatch(row, userId, stockId));
    forall row | row in stock && row.userId == userId ensures ItemRecord(row) in FetchAllStockItems(stock, userId) {
      var i :| 0 <= i < |mine| && mine[i] == row;
      assert FetchAllStockItems(stock, userId)[i] == ItemRecord(row);
    }
    forall rec | rec in FetchAllStockItems(stock, userId)
      ensures exists row :: row in stock && row.userId == userId && rec == ItemRecord(row)
    {
      var i :| 0 <= i < |mine| && FetchAllStockItems(stock, userId)[i] == rec;
      assert mine[i] in mine;
    }
    forall rec | rec in FetchStock(stock, userId, stockId)
      ensures exists row :: row in stock && InBatch(row, userId, stockId) && rec == ItemRecord(row)
    {
      var i :| 0 <= i < |batch| && FetchStock(stock, userId, stockId)[i] == rec;
      assert batch[i] in batch;
    }
    forall row | row in stock && InBatch(row, userId, stockId) ensures ItemRecord(row) in FetchStock(stock, userId, stockId) {
      var i :| 0 <= i < |batch| && batch[i] == row;
      assert FetchStock(stock, userId, stockId)[i] == ItemRecord(row);
    }
  }

  /** The largest stock id among some rows. */
  function MaxStockId(rows: seq<StockRow>): (m: int)
    requires rows != []
    ensures exists i :: 0 <= i < |rows| && rows[i].stockId == m
    ensures forall i :: 0 <= i < |rows| ==> rows[i].stockId <= m
  {
    if |rows| == 1 then rows[0].stockId
    else
      var rest := MaxStockId(rows[1..]);
      assert forall i :: 1 <= i < |rows| ==> rows[i] == rows[1..][i - 1];
      if rows[0].stockId >= rest then rows[0].stockId else rest
  }

  /** `get_latest_stock_by_user(user_id)`: the user's rows in the batch with
      the largest stock id; when the user has no rows the inner `MAX` is
      NULL and nothing matches. */
  function LatestStockByUser(stock: seq<StockRow>, userId: int): seq<StockRow> {
    var mine := StockOfUser(stock, userId);
    if mine == [] then [] else StockOfBatch(stock, userId, MaxStockId(mine))
  }

  /** The latest batch is empty only for a user without rows. */
  lemma LatestStockEmptyIffNoRows(stock: seq<StockRow>, userId: int)
    ensures LatestStockByUser(stock, userId) == [] <==> forall row :: row in stock ==> row.userId != userId
  {
    var mine := StockOfUser(stock, userId);
    FilterMembers(stock, (row: StockRow) => row.userId == userId);
    if mine != [] {
      var m := MaxStockId(mine);
      FilterMembers(stock, (row: StockRow) => InBatch(row, userId, m));
      var i :| 0 <= i < |mine| && mine[i].stockId == m;
      assert mine[i] in mine;
      assert mine[i] in LatestStockByUser(stock, userId);
    }
  }

  /** The latest batch holds exactly the user's rows whose stock id no other
      row of the user exceeds. */
  lemma LatestStockIsNewestBatch(stock: seq<StockRow>, userId: int)
    ensures forall row :: row in LatestStockByUser(stock, userId) <==>
              row in stock && row.userId == userId
              && forall other :: other in stock && other.userId == userId ==> other.stockId <= row.stockId
  {
    var mine := StockOfUser(stock, userId);
    FilterMembers(stock, (row: StockRow) => row.userId == userId);
    if mine != [] {
      var m := MaxStockId(mine);
      var latest := StockOfBatch(stock, userId, m);
      FilterMembers(stock, (row: StockRow) => InBatch(row, userId, m));
      var i :| 0 <= i < |mine| && mine[i].stockId == m;
      assert mine[i] in mine;
      assert forall other :: other in stock && other.userId == userId ==> other.stockId <= m by {
        forall other | other in stock && other.userId == userId ensures other.stockId <= m {
          assert other in mine;
          var j :| 0 <= j < |mine| && mine[j] == other;
        }
      }
      forall row
        ensures row in latest <==>
                  row in stock && row.userId == userId
                  && forall other :: other in stock && other.userId == userId ==> other.stockId <= row.stockId
      {
        if row in stock && row.userId == userId
           && forall other :: other in stock && other.userId == userId ==> other.stockId <= row.stockId {
          assert mine[i].stockId <= row.stockId;
        }
      }
    }
  }
}
