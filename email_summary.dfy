/** The daily summary e-mail: its subject line and its HTML body listing the
    items low in stock and the items expiring soon. Connecting to the mail
    server and sending are not part of this model. */
module EmailSummary {
  import opened Wrappers
  import opened Text
  import opened Values
  import opened Dates

  const SubjectPrefix := "Your Daily Smart Grocery Summary - "

  const NoLowStock := "<li>No items are currently low in stock.</li>"
  const NoExpiring := "<li>No items are expiring soon.</li>"

  /** The subject line for the day the summary is sent. */
  function SummarySubject(today: Date): string
    requires IsRealDate(today)
  {
    SubjectPrefix + Strftime(today)
  }

  /** The body up to the first list, naming the day. */
  function Opening(today: Date): string
    requires IsRealDate(today)
  {
    Greeting + Strftime(today) + LowStockHeading
  }

  const Greeting := "\n            <html>\n                <body>\n                    <p>Good morning!</p>\n\n                    <p>Here's your daily summary from <b>Smart Grocery</b> for "

  const LowStockHeading := ":</p>\n\n                    <h3>Items Low in Stock:</h3>\n                    <ul>\n            "

  const Between := "\n                    </ul>\n                    <h3>Items Expiring Soon:</h3>\n                    <ul>\n            "

  const Footer := "\n                    </ul>\n\n                    <p>Stay smart with your groceries!</p>\n\n                    <p><b>The Smart Grocery Team</b></p>\n                </body>\n            </html>\n            "

  /** One list entry: the item as `str()` prints it. */
  function ListEntry(item: Value): string {
    "<li>" + Render(item) + "</li>"
  }

  /** The entries for the items, in order. */
  function ListEntries(items: seq<Value>): string {
    if items == [] then ""
    else ListEntries(items[..|items| - 1]) + ListEntry(items[|items| - 1])
  }

  /** A list argument as the body tests it: `None` and an empty list are
      falsy and give the fallback entry. */
  function Section(items: Option<seq<Value>>, fallback: string): string {
    if items.None? || items.value == [] then fallback else ListEntries(items.value)
  }

  /** The body `send_grocery_summary` composes. */
  function SummaryBody(today: Date, lowStock: Option<seq<Value>>, expiringSoon: Option<seq<Value>>): string
    requires IsRealDate(today)
  {
    Opening(today) + Section(lowStock, NoLowStock) + Between + Section(expiringSoon, NoExpiring) + Footer
  }

  /** The subject ends with the day in `YYYY-MM-DD` form, which reads back as
      the same day. */
  lemma SubjectNamesTheDay(today: Date)
    requires IsRealDate(today)
    ensures StartsWith(SummarySubject(today), SubjectPrefix)
    ensures Strptime(SummarySubject(today)[|SubjectPrefix|..]) == Ok(today)
  {
    var s := SummarySubject(today);
    assert s[..|SubjectPrefix|] == SubjectPrefix;
    assert s[|SubjectPrefix|..] == Strftime(today);
    StrptimeOfStrftime(today);
  }

  /** Every item has its own entry among the entries. */
  lemma {:induction false} EntriesListEach(items: seq<Value>, i: nat)
    requires i < |items|
    ensures Contains(ListEntries(items), ListEntry(items[i]))
  {
    var n := |items| - 1;
    var before, last := ListEntries(items[..n]), ListEntry(items[n]);
    assert ListEntries(items) == before + last;
    ContainsParts(before, last);
    if i < n {
      assert items[..n][i] == items[i];
      EntriesListEach(items[..n], i);
      ContainsTransitive(before + last, before, ListEntry(items[i]));
    }
  }

  /** A five-part text starts with its first part, ends with its last, and
      contains the second and the fourth. */
  lemma FiveParts(a: string, b: string, c: string, d: string, e: string)
    ensures var s := a + b + c + d + e;
            StartsWith(s, a) && EndsWith(s, e) && Contains(s, b) && Contains(s, d)
  {
    var s := a + b + c + d + e;
    assert s == a + b + (c + d + e);
    assert s == (a + b + c) + d + e;
    assert s[..|a|] == a;
    assert s[|s| - |e|..] == e;
    ContainsMiddle(a, b, c + d + e);
    ContainsMiddle(a + b + c, d, e);
  }

  /** The body opens with the greeting naming the day and closes with the
      signature. */
  lemma BodyFrame(today: Date, lowStock: Option<seq<Value>>, expiringSoon: Option<seq<Value>>)
    requires IsRealDate(today)
    ensures var body := SummaryBody(today, lowStock, expiringSoon);
            StartsWith(body, Opening(today)) && EndsWith(body, Footer) && Contains(body, Strftime(today))
  {
    var date := Strftime(today);
    var low, exp := Section(lowStock, NoLowStock), Section(expiringSoon, NoExpiring);
    FiveParts(Opening(today), low, Between, exp, Footer);
    DayInText(Greeting, date, LowStockHeading, low, Between, exp, Footer);
  }

  lemma DayInText(g: string, date: string, h: string, low: string, between: string, exp: string, footer: string)
    ensures Contains(g + date + h + low + between + exp + footer, date)
  {
    var rest := h + low + between + exp + footer;
    ContainsMiddle(g, date, rest);
    assert g + date + rest == g + date + h + low + between + exp + footer;
  }

  /** Every low-stock and every expiring item has its entry in the body, and
      a list that is missing or empty shows its fallback entry instead. */
  lemma BodyListsItems(today: Date, lowStock: Option<seq<Value>>, expiringSoon: Option<seq<Value>>)
    requires IsRealDate(today)
    ensures var body := SummaryBody(today, lowStock, expiringSoon);
            && (lowStock.Some? ==> forall i :: 0 <= i < |lowStock.value| ==> Contains(body, ListEntry(lowStock.value[i])))
            && (expiringSoon.Some? ==>
                  forall i :: 0 <= i < |expiringSoon.value| ==> Contains(body, ListEntry(expiringSoon.value[i])))
            && (lowStock.None? || lowStock.value == [] ==> Contains(body, NoLowStock))
            && (expiringSoon.None? || expiringSoon.value == [] ==> Contains(body, NoExpiring))
  {
    var body := SummaryBody(today, lowStock, expiringSoon);
    var open, low, exp := Opening(today), Section(lowStock, NoLowStock), Section(expiringSoon, NoExpiring);
    FiveParts(open, low, Between, exp, Footer);
    if lowStock.Some? && lowStock.value != [] {
      forall i | 0 <= i < |lowStock.value| ensures Contains(body, ListEntry(lowStock.value[i])) {
        EntriesListEach(lowStock.value, i);
        ContainsTransitive(body, low, ListEntry(lowStock.value[i]));
      }
    }
    if expiringSoon.Some? && expiringSoon.value != [] {
      forall i | 0 <= i < |expiringSoon.value| ensures Contains(body, ListEntry(expiringSoon.value[i])) {
        EntriesListEach(expiringSoon.value, i);
        ContainsTransitive(body, exp, ListEntry(expiringSoon.value[i]));
      }
    }
  }

  /** `send_grocery_summary` up to the hand-over to `send_email`: the subject
      and the body, built by appending one entry per item. */
  method ComposeSummary(today: Date, lowStock: Option<seq<Value>>, expiringSoon: Option<seq<Value>>)
    returns (subject: string, body: string)
    requires IsRealDate(today)
    ensures subject == SummarySubject(today)
    ensures body == SummaryBody(today, lowStock, expiringSoon)
  {
    subject := SubjectPrefix + Strftime(today);
    body := Opening(today);
    var low := AppendEntries(lowStock, NoLowStock);
    body := body + low + Between;
    var expiring := AppendEntries(expiringSoon, NoExpiring);
    body := body + expiring + Footer;
  }

  /** One of the two `for item in ...: body += ...` loops with its fallback. */
  method AppendEntries(items: Option<seq<Value>>, fallback: string) returns (text: string)
    ensures text == Section(items, fallback)
  {
    if items.None? || items.value == [] {
      return fallback;
    }
    var xs := items.value;
    text := "";
    var i := 0;
    while i < |xs|
      invariant 0 <= i <= |xs|
      invariant text == ListEntries(xs[..i])
    {
      assert xs[..i + 1][..i] == xs[..i];
      text := text + ListEntry(xs[i]);
      i := i + 1;
    }
    assert xs[..i] == xs;
  }
}
