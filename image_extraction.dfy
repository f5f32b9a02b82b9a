/** What the two extraction agents (stock photos and receipts) do around the
    image-to-JSON model: the file names they accept, the MIME type they
    declare for the upload, and how they unwrap a reply that the model fenced
    as a JSON code block. */
module ImageExtraction {
  import opened Wrappers
  import opened Text
  import opened Values

  const InvalidPathMessage := "Invalid image path. Provide a valid image file (.png, .jpeg, .jpg)."

  /** `path.endswith((".png", ".jpeg", ".jpg"))`, which compares case-sensitively. */
  predicate HasImageSuffix(path: string) {
    EndsWith(path, ".png") || EndsWith(path, ".jpeg") || EndsWith(path, ".jpg")
  }

  /** The guard at the top of `process_stock_image` and `process_receipt`:
      the accepted path, or the ValueError both raise before opening any file. */
  function CheckImagePath(path: Value): (r: Result<string, PyError>)
    ensures r.Ok? <==> path.Str? && HasImageSuffix(path.s)
    ensures r.Ok? ==> r.value == path.s
    ensures r.Err? ==> r.error == ValueError(InvalidPathMessage)
  {
    if path.Str? && HasImageSuffix(path.s) then Ok(path.s) else Err(ValueError(InvalidPathMessage))
  }

  /** The MIME type the stock agent declares for an accepted path. */
  function StockMimeType(path: string): (mime: string)
    requires HasImageSuffix(path)
    ensures mime == "image/png" <==> EndsWith(path, ".png")
    ensures mime != "image/png" ==> mime == "image/jpeg" && (EndsWith(path, ".jpeg") || EndsWith(path, ".jpg"))
  {
    if EndsWith(path, ".png") then "image/png" else "image/jpeg"
  }

  /** The receipt agent declares every upload as JPEG, PNG files included. */
  function ReceiptMimeType(path: string): (mime: string)
    requires HasImageSuffix(path)
    ensures mime == "image/jpeg"
  {
    "image/jpeg"
  }

  /** The suffix test is case-sensitive: an upper-case extension is refused. */
  lemma UpperCaseSuffixRejected()
    ensures CheckImagePath(Str("receipt.PNG")).Err?
    ensures CheckImagePath(Str("receipt.JPG")).Err?
    ensures CheckImagePath(Str("receipt.png")) == Ok("receipt.png")
  {
    assert "receipt.PNG"[7..] == ".PNG";
    assert "receipt.PNG"[8..] == "PNG";
    assert "receipt.JPG"[7..] == ".JPG";
    assert "receipt.JPG"[8..] == "JPG";
    assert "receipt.png"[7..] == ".png";
  }

  /** A reply that opens with the JSON fence and closes with a plain one. */
  predicate IsFenced(s: string) {
    StartsWith(s, "```json") && EndsWith(s, "```")
  }

  /** The opening and the closing fence cannot overlap. */
  lemma FencedIsLongEnough(s: string)
    requires IsFenced(s)
    ensures |s| >= 10
  {
    assert s[..7] == "```json";
    assert s[4] == 's' && s[5] == 'o' && s[6] == 'n';
    assert s[|s| - 3] == '`';
  }

  /** `raw[7:-3].strip()` when `raw` is fenced, `raw` itself otherwise. */
  function StripJsonFence(raw: string): (r: string)
    ensures !IsFenced(raw) ==> r == raw
    ensures IsFenced(raw) ==> |raw| >= 10 && r == Strip(raw[7..|raw| - 3])
  {
    if IsFenced(raw) then
      FencedIsLongEnough(raw);
      Strip(raw[7..|raw| - 3])
    else raw
  }

  /** The reply text as both agents hand it to `json.loads`: stripped, then
      unfenced once. */
  function UnwrapReply(text: string): (r: string)
    ensures IsStripped(r)
    ensures !IsFenced(Strip(text)) ==> r == Strip(text)
  {
    StripJsonFence(Strip(text))
  }

  function Fenced(body: string): string {
    "```json" + body + "```"
  }

  /** A fenced body has no whitespace at its ends and is recognised as fenced. */
  lemma FencedShape(body: string)
    ensures IsStripped(Fenced(body)) && IsFenced(Fenced(body))
    ensures Fenced(body)[7..|Fenced(body)| - 3] == body
  {
    var f := Fenced(body);
    assert f[..7] == "```json";
    assert f[|f| - 3..] == "```";
  }

  /** Unwrapping a fenced body yields the body without surrounding whitespace,
      whatever whitespace surrounds the fence. */
  lemma {:induction false} UnwrapFenced(pre: string, body: string, post: string)
    requires forall k :: 0 <= k < |pre| ==> IsSpace(pre[k])
    requires forall k :: 0 <= k < |post| ==> IsSpace(post[k])
    ensures UnwrapReply(pre + Fenced(body) + post) == Strip(body)
  {
    var f := Fenced(body);
    StripIgnoresPadding(pre, f, post);
    FencedShape(body);
    StripOfStripped(f);
    assert Strip(pre + f + post) == f;
  }

  /** Only one fence is removed: a doubly fenced body keeps its inner fence. */
  lemma {:induction false} OneFenceRemoved(body: string)
    ensures UnwrapReply(Fenced(Fenced(body))) == Fenced(body)
  {
    var f := Fenced(body);
    var g := Fenced(f);
    FencedShape(f);
    StripOfStripped(g);
    assert StripJsonFence(g) == Strip(f);
    FencedShape(body);
    StripOfStripped(f);
  }
}
