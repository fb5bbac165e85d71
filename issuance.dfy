/** The generate-tokens handler: it validates an issuance request, walks the per-day token
    counts, builds an id, two attachments and a preview for every token, writes a record
    for each id the table does not list yet, and builds the day-wise list of inline images
    for the notification mail. */
module Issuance {
  import opened Js
  import opened Store
  import opened TokenFormat

  /** One entry of `Object.entries(days)`, in iteration order, with `Number(countRaw || 0)`
      as an integer. */
  datatype DayEntry = DayEntry(key: string, count: int)

  /** The destructured request body. `days` is `None` for a JSON `null`; an absent `days`
      defaults to `{}` (no entries), and any other value stands for its entries. */
  datatype Fields = Fields(eventName: Value, blockNo: Value, flatNo: Value, email: Value, days: Option<seq<DayEntry>>)

  datatype Request = Request(httpMethod: string, body: Parsed<Fields>)

  /** What the world answers while one token is handled: `Date.now()` when its id is
      built, and the replies to the lookup and the create request for its record. */
  datatype TokenEnv = TokenEnv(stamp: nat, lookup: LookupReply, create: CreateReply)

  /** `QRCode.toBuffer(text)`: the PNG that encodes `text`, an opaque value. */
  datatype Image = QrPng(text: string)

  /** A mail attachment; `cid` is present on the inline copy only. */
  datatype Attachment = Attachment(filename: string, content: Image, cid: Option<string>)

  /** One element of `qrPreviews`; the image stands for its base64 data URL. */
  datatype Preview = Preview(caption: string, tokenId: string, image: Image)

  /** One `<li>` of the day list, and one `<h4>` section with its items. */
  datatype Item = Item(day: string, index: nat, cid: string)
  datatype Section = Section(day: string, count: nat, items: seq<Item>)

  /** The message handed to the mailer: the contributor's address (after the organiser's),
      the day list embedded in the HTML body, and the attachments. */
  datatype Mail = Mail(contributor: string, dayList: string, attachments: seq<Attachment>)

  datatype Body =
    | Text(text: string)
    | Error(error: string)
    | Crashed(fault: Fault)
    | Issued(message: string, previews: seq<Preview>)

  datatype Response = Response(statusCode: int, body: Body)

  /** Everything one call produces: the response, the mail if one was sent, and the table. */
  datatype Handled = Handled(response: Response, mail: Option<Mail>, rows: seq<Row>)

  const IssuedMessage := "Tokens generated and emailed to organiser and contributor for verification."

  /** How often `for (let i = 1; i <= count; i++)` runs. */
  function Max0(n: int): nat
  {
    if n > 0 then n else 0
  }

  /** The number of tokens a request asks for: the sum over its days of max(count, 0). */
  function Total(days: seq<DayEntry>): nat
  {
    if days == [] then 0 else Max0(days[0].count) + Total(days[1..])
  }

  /** The tokens of one day: indices 1 to n, in order. */
  function DaySlots(key: string, n: nat): (r: seq<Slot>)
    ensures |r| == n
    ensures forall j :: 0 <= j < n ==> r[j] == Slot(key, j + 1)
  {
    if n == 0 then [] else DaySlots(key, n - 1) + [Slot(key, n)]
  }

  /** The tokens of a request in the order the nested loops visit them. */
  function Slots(days: seq<DayEntry>): seq<Slot>
  {
    if days == [] then []
    else
      var last := days[|days| - 1];
      Slots(days[..|days| - 1]) + DaySlots(last.key, Max0(last.count))
  }

  /** The timestamps of the tokens, one per token in loop order. */
  function StampsOf(env: seq<TokenEnv>): seq<nat>
  {
    seq(|env|, k requires 0 <= k < |env| => env[k].stamp)
  }

  /** The entries the loops walk, when `days` is not null. */
  function EntriesOf(f: Fields): seq<DayEntry>
  {
    if f.days.Some? then f.days.value else []
  }

  predicate Complete(f: Fields)
  {
    Truthy(f.eventName) && Truthy(f.blockNo) && Truthy(f.flatNo) && Truthy(f.email)
  }

  /** The context the templates render. The event part is only ever used when the event
      name is a string: otherwise `eventName.replace` throws before the first id exists. */
  function ContextOf(f: Fields): Context
  {
    Context(if f.eventName.Str? then RemoveWhitespace(f.eventName.s) else "", ToStr(f.blockNo), ToStr(f.flatNo))
  }

  function PreviewOf(c: Context, s: Slot, stamp: nat): Preview
  {
    var id := TokenId(c, s, stamp);
    Preview(Label(s), id, QrPng(id))
  }

  function PlainAttachment(c: Context, s: Slot, stamp: nat): Attachment
  {
    Attachment(Filename(s), QrPng(TokenId(c, s, stamp)), None)
  }

  function InlineAttachment(c: Context, s: Slot, stamp: nat): Attachment
  {
    Attachment("inline-" + Filename(s), QrPng(TokenId(c, s, stamp)), Some(Cid(c, s)))
  }

  /** The record created for a token: its id, `block-flat`, its day, not redeemed. */
  function RowOf(c: Context, s: Slot, stamp: nat): Row
  {
    Row(TokenId(c, s, stamp), Resident(c), s.day, None)
  }

  /** `qrPreviews` after the given tokens: one preview per token, in token order. */
  function Previews(c: Context, slots: seq<Slot>, stamps: seq<nat>): (r: seq<Preview>)
    requires |slots| <= |stamps|
    ensures |r| == |slots|
  {
    if slots == [] then []
    else
      var n := |slots| - 1;
      Previews(c, slots[..n], stamps) + [PreviewOf(c, slots[n], stamps[n])]
  }

  /** `attachments` after the given tokens: for the token at position k, the plain file at
      2k and the inline copy that carries the content id at 2k + 1. */
  function Attachments(c: Context, slots: seq<Slot>, stamps: seq<nat>): (r: seq<Attachment>)
    requires |slots| <= |stamps|
    ensures |r| == 2 * |slots|
  {
    if slots == [] then []
    else
      var n := |slots| - 1;
      Attachments(c, slots[..n], stamps) + [PlainAttachment(c, slots[n], stamps[n]), InlineAttachment(c, slots[n], stamps[n])]
  }

  /** The store step of one token: a record is created exactly when the lookup did not
      throw, did not list a record with that id, and the create request succeeded; an
      existing record, and every other one, is left as it is. */
  function StoreStep(rows: seq<Row>, row: Row, e: TokenEnv): (r: seq<Row>)
    ensures r == rows || r == rows + [row]
    ensures r == rows + [row] <==>
              !e.lookup.LookupFailed? && e.create.CreateOk? &&
              (e.lookup.RecordsListed? ==> !HasToken(rows, row.tokenID))
  {
    if e.lookup.LookupFailed? then rows
    else if e.lookup.NoRecordsField? || |Matching(rows, row.tokenID)| == 0 then
      (if e.create.CreateOk? then rows + [row] else rows)
    else rows
  }

  /** The table after the store steps of the given tokens. */
  function StoreRun(rows: seq<Row>, c: Context, slots: seq<Slot>, env: seq<TokenEnv>): seq<Row>
    requires |slots| <= |env|
  {
    if slots == [] then rows
    else
      var n := |slots| - 1;
      StoreStep(StoreRun(rows, c, slots[..n], env), RowOf(c, slots[n], env[n].stamp), env[n])
  }

  function ItemOf(c: Context, s: Slot): Item
  {
    Item(s.day, s.index, Cid(c, s))
  }

  function ItemsOf(c: Context, slots: seq<Slot>): (r: seq<Item>)
    ensures |r| == |slots|
  {
    if slots == [] then []
    else ItemsOf(c, slots[..|slots| - 1]) + [ItemOf(c, slots[|slots| - 1])]
  }

  /** The sections of the day list: one per day whose count is positive, holding one
      item per token of that day. */
  function Sections(c: Context, days: seq<DayEntry>): (r: seq<Section>)
    ensures |r| <= |days|
  {
    if days == [] then []
    else
      var last := days[|days| - 1];
      Sections(c, days[..|days| - 1]) +
        (if last.count > 0 then [Section(last.key, last.count, ItemsOf(c, DaySlots(last.key, last.count)))] else [])
  }

  /** The items of the day list, section after section. */
  function Flatten(sections: seq<Section>): seq<Item>
  {
    if sections == [] then []
    else Flatten(sections[..|sections| - 1]) + sections[|sections| - 1].items
  }

  function SectionHead(day: string, count: nat): string
  {
    "<h4>Day " + day + "</h4><p>Number of tokens: " + NatStr(count) + "</p><ul>"
  }

  function ItemHtml(it: Item): string
  {
    "<li>Day" + it.day + " token " + NatStr(it.index) + " - <img src=\"cid:" + it.cid +
      "\" width=\"120\" style=\"display:block; margin:6px 0;\"></li>"
  }

  function RenderItems(items: seq<Item>): string
  {
    if items == [] then "" else RenderItems(items[..|items| - 1]) + ItemHtml(items[|items| - 1])
  }

  function SectionHtml(s: Section): string
  {
    SectionHead(s.day, s.count) + RenderItems(s.items) + "</ul>"
  }

  /** `dayListHtml`. */
  function RenderSections(sections: seq<Section>): string
  {
    if sections == [] then ""
    else RenderSections(sections[..|sections| - 1]) + SectionHtml(sections[|sections| - 1])
  }

  /** What one call of the handler does, given the request, what the world answers per
      token, whether `sendMail` threw, and the table beforehand. */
  function Outcome(req: Request, env: seq<TokenEnv>, mailFault: Option<Fault>, rows: seq<Row>): (h: Handled)
    requires req.body.Parsed? ==> |Slots(EntriesOf(req.body.fields))| <= |env|
    ensures req.httpMethod != "POST" ==> h == Handled(Response(405, Text("Method Not Allowed")), None, rows)
    ensures h.response.statusCode == 400 <==>
              req.httpMethod == "POST" && req.body.Parsed? && !Complete(req.body.fields)
    ensures h.response.statusCode == 400 ==> h.response.body == Error("Missing required fields")
    ensures req.httpMethod == "POST" && req.body.Malformed? ==>
              h.response == Response(500, Crashed(ParseError(req.body.message)))
    ensures req.httpMethod == "POST" && req.body.Parsed? && Complete(req.body.fields) &&
            req.body.fields.days.None? ==>
              h.response == Response(500, Crashed(NotAnObject("Object.entries")))
    ensures req.httpMethod == "POST" && req.body.Parsed? && Complete(req.body.fields) &&
            req.body.fields.days.Some? && !req.body.fields.eventName.Str? &&
            Total(req.body.fields.days.value) > 0 ==>
              h.response == Response(500, Crashed(NotAFunction("eventName.replace")))
    ensures h.rows != rows ==>
              req.httpMethod == "POST" && req.body.Parsed? && Complete(req.body.fields) &&
              req.body.fields.days.Some? && req.body.fields.eventName.Str?
    ensures h.mail.Some? <==>
              req.httpMethod == "POST" && req.body.Parsed? && Complete(req.body.fields) &&
              req.body.fields.days.Some? &&
              (req.body.fields.eventName.Str? || Total(req.body.fields.days.value) == 0)
    ensures h.response.statusCode == 200 ==>
              h.mail.Some? && mailFault.None? && h.response.body.Issued? &&
              |h.response.body.previews| == Total(req.body.fields.days.value) &&
              |h.mail.value.attachments| == 2 * Total(req.body.fields.days.value)
    ensures h.response.statusCode == 200 <==>
              req.httpMethod == "POST" && req.body.Parsed? && Complete(req.body.fields) &&
              req.body.fields.days.Some? &&
              (req.body.fields.eventName.Str? || Total(req.body.fields.days.value) == 0) &&
              mailFault.None?
    ensures h.response.statusCode == 200 ==>
              h.response.body == Issued(IssuedMessage, Previews(ContextOf(req.body.fields),
                                                                Slots(req.body.fields.days.value), StampsOf(env)))
    ensures h.mail.Some? ==>
              var f := req.body.fields;
              var c := ContextOf(f);
              var slots := Slots(f.days.value);
              h.mail.value == Mail(ToStr(f.email), RenderSections(Sections(c, f.days.value)), Attachments(c, slots, StampsOf(env))) &&
              h.rows == StoreRun(rows, c, slots, env)
    ensures h.mail.None? ==> h.rows == rows
    ensures h.mail.Some? && mailFault.Some? ==> h.response == Response(500, Crashed(mailFault.value))
  {
    if req.httpMethod != "POST" then Handled(Response(405, Text("Method Not Allowed")), None, rows)
    else if req.body.Malformed? then Handled(Response(500, Crashed(ParseError(req.body.message))), None, rows)
    else
      var f := req.body.fields;
      if !Complete(f) then Handled(Response(400, Error("Missing required fields")), None, rows)
      else if f.days.None? then Handled(Response(500, Crashed(NotAnObject("Object.entries"))), None, rows)
      else
        var days := f.days.value;
        var slots := Slots(days);
        SlotsCount(days);
        if !f.eventName.Str? && |slots| > 0 then
          Handled(Response(500, Crashed(NotAFunction("eventName.replace"))), None, rows)
        else
          var c := ContextOf(f);
          var stamps := StampsOf(env);
          var mail := Mail(ToStr(f.email), RenderSections(Sections(c, days)), Attachments(c, slots, stamps));
          var response :=
            if mailFault.None? then Response(200, Issued(IssuedMessage, Previews(c, slots, stamps)))
            else Response(500, Crashed(mailFault.value));
          Handled(response, Some(mail), StoreRun(rows, c, slots, env))
  }

  /** The handler. `env` holds what the clock and the table answer for each token in loop
      order, `mailFault` whether `sendMail` threw. */
  method Handle(req: Request, env: seq<TokenEnv>, mailFault: Option<Fault>, table: Table)
    returns (resp: Response, mail: Option<Mail>)
    requires req.body.Parsed? ==> |Slots(EntriesOf(req.body.fields))| <= |env|
    modifies table
    ensures Handled(resp, mail, table.rows) == Outcome(req, env, mailFault, old(table.rows))
  {
    if req.httpMethod != "POST" {
      return Response(405, Text("Method Not Allowed")), None;
    }
    if req.body.Malformed? {
      return Response(500, Crashed(ParseError(req.body.message))), None;
    }
    var f := req.body.fields;
    if !Truthy(f.eventName) || !Truthy(f.blockNo) || !Truthy(f.flatNo) || !Truthy(f.email) {
      return Response(400, Error("Missing required fields")), None;
    }
    if f.days.None? {
      return Response(500, Crashed(NotAnObject("Object.entries"))), None;
    }
    var days := f.days.value;
    var c := ContextOf(f);
    var attachments, previews, threw := IssueTokens(c, f.eventName.Str?, days, env, table);
    if threw {
      return Response(500, Crashed(NotAFunction("eventName.replace"))), None;
    }
    var dayList := DayListHtml(c, days);
    mail := Some(Mail(ToStr(f.email), dayList, attachments));
    if mailFault.Some? {
      resp := Response(500, Crashed(mailFault.value));
    } else {
      resp := Response(200, Issued(IssuedMessage, previews));
    }
  }

  /** The token loop: for every day in order and every index 1..count, build the id, the
      two attachments and the preview, then run the store step. `threw` reports that
      `eventName.replace` threw on the first token, before anything was written. */
  method IssueTokens(c: Context, named: bool, days: seq<DayEntry>, env: seq<TokenEnv>, table: Table)
    returns (attachments: seq<Attachment>, previews: seq<Preview>, threw: bool)
    requires |Slots(days)| <= |env|
    modifies table
    ensures threw <==> !named && |Slots(days)| > 0
    ensures threw ==> table.rows == old(table.rows)
    ensures !threw ==>
              attachments == Attachments(c, Slots(days), StampsOf(env)) &&
              previews == Previews(c, Slots(days), StampsOf(env)) &&
              table.rows == StoreRun(old(table.rows), c, Slots(days), env)
  {
    attachments, previews, threw := [], [], false;
    ghost var rows0 := table.rows;
    ghost var stamps := StampsOf(env);
    ghost var done: seq<Slot> := [];
    var p := 0;
    var e := 0;
    while e < |days|
      invariant 0 <= e <= |days| && done == Slots(days[..e])
      invariant p == |done| <= |Slots(days)|
      invariant !named ==> p == 0
      invariant previews == Previews(c, done, stamps)
      invariant attachments == Attachments(c, done, stamps)
      invariant table.rows == StoreRun(rows0, c, done, env)
    {
      SlotsSnoc(days, e);
      SlotsPrefixShorter(days, e + 1);
      attachments, previews, threw :=
        IssueDay(c, named, days[e].key, days[e].count, env, p, done, rows0,
                 attachments, previews, table);
      if threw {
        return;
      }
      done := done + DaySlots(days[e].key, Max0(days[e].count));
      p := p + Max0(days[e].count);
      e := e + 1;
    }
    assert days[..e] == days;
  }

  /** The inner loop of the token loop, for one day: tokens 1..count of `dayKey`, after
      the `p0` tokens of the earlier days. It throws on its first token when the event
      name is not a string; the outer loop then stops. */
  method IssueDay(c: Context, named: bool, dayKey: string, count: int, env: seq<TokenEnv>, p0: nat,
                  ghost done0: seq<Slot>, ghost rows0: seq<Row>,
                  attachments0: seq<Attachment>, previews0: seq<Preview>, table: Table)
    returns (attachments: seq<Attachment>, previews: seq<Preview>, threw: bool)
    requires p0 == |done0| && p0 + Max0(count) <= |env|
    requires !named ==> p0 == 0
    requires attachments0 == Attachments(c, done0, StampsOf(env))
    requires previews0 == Previews(c, done0, StampsOf(env))
    requires table.rows == StoreRun(rows0, c, done0, env)
    modifies table
    ensures threw <==> !named && count > 0
    ensures threw ==> table.rows == old(table.rows)
    ensures !threw ==>
              attachments == Attachments(c, done0 + DaySlots(dayKey, Max0(count)), StampsOf(env)) &&
              previews == Previews(c, done0 + DaySlots(dayKey, Max0(count)), StampsOf(env)) &&
              table.rows == StoreRun(rows0, c, done0 + DaySlots(dayKey, Max0(count)), env)
  {
    attachments, previews, threw := attachments0, previews0, false;
    ghost var stamps := StampsOf(env);
    ghost var done := done0;
    assert done0 + DaySlots(dayKey, 0) == done0;
    var p := p0;
    var i := 1;
    while i <= count
      invariant 1 <= i <= Max0(count) + 1 && p == p0 + i - 1 && p == |done|
      invariant done == done0 + DaySlots(dayKey, i - 1)
      invariant previews == Previews(c, done, stamps)
      invariant attachments == Attachments(c, done, stamps)
      invariant table.rows == StoreRun(rows0, c, done, env)
      invariant !named ==> i == 1 && table.rows == old(table.rows)
    {
      if !named {
        threw := true;
        return;
      }
      var slot := Slot(dayKey, i);
      var plain, inline, preview := IssueOne(c, slot, env[p], table);
      attachments := attachments + [plain];
      attachments := attachments + [inline];
      previews := previews + [preview];
      TokenStepSnoc(c, done, slot, stamps, env, rows0);
      DaySlotsSnoc(done0, dayKey, i);
      done := done + [slot];
      p := p + 1;
      i := i + 1;
    }
    assert i - 1 == Max0(count);
    assert done == done0 + DaySlots(dayKey, Max0(count));
  }

  lemma DaySlotsSnoc(done0: seq<Slot>, key: string, i: nat)
    requires i >= 1
    ensures done0 + DaySlots(key, i) == done0 + DaySlots(key, i - 1) + [Slot(key, i)]
  {
    Assoc3(done0, DaySlots(key, i - 1), [Slot(key, i)]);
  }

  /** The body of the token loop for one token: build the id, the file name and the
      content id, the two attachments and the preview, then look the id up and create its
      record if the lookup did not list one. Failures of either request are swallowed. */
  method IssueOne(c: Context, slot: Slot, e: TokenEnv, table: Table)
    returns (plain: Attachment, inline: Attachment, preview: Preview)
    modifies table
    ensures plain == PlainAttachment(c, slot, e.stamp) && inline == InlineAttachment(c, slot, e.stamp)
    ensures preview == PreviewOf(c, slot, e.stamp)
    ensures table.rows == StoreStep(old(table.rows), RowOf(c, slot, e.stamp), e)
  {
    var tokenId := TokenId(c, slot, e.stamp);
    var filename := Filename(slot);
    var cid := Cid(c, slot);
    plain := Attachment(filename, QrPng(tokenId), None);
    inline := Attachment("inline-" + filename, QrPng(tokenId), Some(cid));
    preview := Preview(Label(slot), tokenId, QrPng(tokenId));
    if !e.lookup.LookupFailed? {
      if e.lookup.NoRecordsField? || |Matching(table.rows, tokenId)| == 0 {
        if e.create.CreateOk? {
          table.Append(Row(tokenId, Resident(c), slot.day, None));
        }
      }
    }
  }

  /** Appending one token to those done extends each output by that token's part. */
  lemma TokenStepSnoc(c: Context, done: seq<Slot>, slot: Slot, stamps: seq<nat>, env: seq<TokenEnv>, rows: seq<Row>)
    requires |done| < |stamps| == |env| && stamps[|done|] == env[|done|].stamp
    ensures Previews(c, done + [slot], stamps) == Previews(c, done, stamps) + [PreviewOf(c, slot, stamps[|done|])]
    ensures Attachments(c, done + [slot], stamps) ==
              Attachments(c, done, stamps) + [PlainAttachment(c, slot, stamps[|done|])] +
              [InlineAttachment(c, slot, stamps[|done|])]
    ensures StoreRun(rows, c, done + [slot], env) ==
              StoreStep(StoreRun(rows, c, done, env), RowOf(c, slot, stamps[|done|]), env[|done|])
  {
    assert (done + [slot])[..|done|] == done;
  }

  /** The loop that builds `dayListHtml`. */
  method DayListHtml(c: Context, days: seq<DayEntry>) returns (html: string)
    ensures html == RenderSections(Sections(c, days))
  {
    html := "";
    ghost var sections: seq<Section> := [];
    var e := 0;
    while e < |days|
      invariant 0 <= e <= |days| && sections == Sections(c, days[..e])
      invariant html == RenderSections(sections)
    {
      var dayKey, count := days[e].key, days[e].count;
      SectionsStep(c, days, e);
      if count > 0 {
        ghost var s := Section(dayKey, count, ItemsOf(c, DaySlots(dayKey, count)));
        RenderSectionsSnoc(sections, s);
        html := AppendSection(html, c, dayKey, count);
        sections := sections + [s];
      } else {
        assert sections + [] == sections;
      }
      e := e + 1;
    }
    assert days[..e] == days;
  }

  /** The body of the day-list loop for a day with a positive count: its heading, the
      token count, one `<li>` per token, and the closing tag. */
  method AppendSection(html0: string, c: Context, dayKey: string, count: nat) returns (html: string)
    ensures html == html0 + SectionHtml(Section(dayKey, count, ItemsOf(c, DaySlots(dayKey, count))))
  {
    var head := SectionHead(dayKey, count);
    html := html0 + head;
    html := AppendDayItems(html, c, dayKey, count);
    html := html + "</ul>";
    Assoc4(html0, head, RenderItems(ItemsOf(c, DaySlots(dayKey, count))), "</ul>");
  }

  /** The inner loop of the day list: one `<li>` per token of the day, appended to `html`. */
  method AppendDayItems(html0: string, c: Context, dayKey: string, count: nat) returns (html: string)
    ensures html == html0 + RenderItems(ItemsOf(c, DaySlots(dayKey, count)))
  {
    html := html0;
    ghost var items: seq<Item> := [];
    var i := 1;
    while i <= count
      invariant 1 <= i <= count + 1 && items == ItemsOf(c, DaySlots(dayKey, i - 1))
      invariant html == html0 + RenderItems(items)
    {
      var item := Item(dayKey, i, Cid(c, Slot(dayKey, i)));
      ItemsOfDaySnoc(c, dayKey, i);
      RenderItemsSnoc(items, item);
      Assoc3(html0, RenderItems(items), ItemHtml(item));
      html := html + ItemHtml(item);
      items := items + [item];
      i := i + 1;
    }
  }

  lemma ItemsOfDaySnoc(c: Context, key: string, i: nat)
    requires i >= 1
    ensures ItemsOf(c, DaySlots(key, i)) == ItemsOf(c, DaySlots(key, i - 1)) + [Item(key, i, Cid(c, Slot(key, i)))]
  {
    assert DaySlots(key, i)[..i - 1] == DaySlots(key, i - 1);
  }

  lemma RenderItemsSnoc(items: seq<Item>, it: Item)
    ensures RenderItems(items + [it]) == RenderItems(items) + ItemHtml(it)
  {
    assert (items + [it])[..|items|] == items;
  }

  /** One more day adds its section when its count is positive, and nothing otherwise. */
  lemma SectionsStep(c: Context, days: seq<DayEntry>, e: nat)
    requires e < |days|
    ensures Sections(c, days[..e + 1]) ==
            Sections(c, days[..e]) +
              (if days[e].count > 0
               then [Section(days[e].key, days[e].count, ItemsOf(c, DaySlots(days[e].key, days[e].count)))]
               else [])
  {
    assert days[..e + 1][..e] == days[..e];
  }

  lemma RenderSectionsSnoc(ss: seq<Section>, s: Section)
    ensures RenderSections(ss + [s]) == RenderSections(ss) + SectionHtml(s)
  {
    assert (ss + [s])[..|ss|] == ss;
  }

  lemma Assoc3<T>(a: seq<T>, b: seq<T>, c: seq<T>)
    ensures (a + b) + c == a + (b + c)
  {
  }

  lemma Assoc4(a: string, b: string, c: string, d: string)
    ensures ((a + b) + c) + d == a + ((b + c) + d)
  {
  }

  // ---------------------------------------------------------------------------------
  // Properties of the token loop

  /** The k-th preview belongs to the k-th token and carries its id and its QR image. */
  lemma {:induction false} PreviewsAt(c: Context, slots: seq<Slot>, stamps: seq<nat>, k: nat)
    requires |slots| <= |stamps| && k < |slots|
    ensures Previews(c, slots, stamps)[k] == PreviewOf(c, slots[k], stamps[k])
    decreases |slots|
  {
    var n := |slots| - 1;
    if k < n {
      PreviewsAt(c, slots[..n], stamps, k);
    }
  }

  /** The plain file of the k-th token sits at 2k, its inline copy with the content id at 2k + 1. */
  lemma {:induction false} AttachmentsAt(c: Context, slots: seq<Slot>, stamps: seq<nat>, k: nat)
    requires |slots| <= |stamps| && k < |slots|
    ensures Attachments(c, slots, stamps)[2 * k] == PlainAttachment(c, slots[k], stamps[k])
    ensures Attachments(c, slots, stamps)[2 * k + 1] == InlineAttachment(c, slots[k], stamps[k])
    decreases |slots|
  {
    var n := |slots| - 1;
    if k < n {
      AttachmentsAt(c, slots[..n], stamps, k);
    }
  }

  lemma {:induction false} ItemsOfAt(c: Context, slots: seq<Slot>, k: nat)
    requires k < |slots|
    ensures ItemsOf(c, slots)[k] == ItemOf(c, slots[k])
    decreases |slots|
  {
    var n := |slots| - 1;
    if k < n {
      ItemsOfAt(c, slots[..n], k);
    }
  }

  lemma {:induction false} TotalSnoc(days: seq<DayEntry>, d: DayEntry)
    ensures Total(days + [d]) == Total(days) + Max0(d.count)
    decreases |days|
  {
    if days != [] {
      assert (days + [d])[1..] == days[1..] + [d];
      TotalSnoc(days[1..], d);
    }
  }

  /** The loops visit exactly sum(max(count, 0)) tokens. */
  lemma {:induction false} SlotsCount(days: seq<DayEntry>)
    ensures |Slots(days)| == Total(days)
    decreases |days|
  {
    if days != [] {
      var n := |days| - 1;
      SlotsCount(days[..n]);
      assert days == days[..n] + [days[n]];
      TotalSnoc(days[..n], days[n]);
    }
  }

  /** Taking one more day appends that day's tokens. */
  lemma SlotsSnoc(days: seq<DayEntry>, e: nat)
    requires e < |days|
    ensures Slots(days[..e + 1]) == Slots(days[..e]) + DaySlots(days[e].key, Max0(days[e].count))
  {
    assert days[..e + 1][..e] == days[..e];
  }

  /** The first m days have no more tokens than all of them. */
  lemma {:induction false} SlotsPrefixShorter(days: seq<DayEntry>, m: nat)
    requires m <= |days|
    ensures |Slots(days[..m])| <= |Slots(days)|
    decreases |days|
  {
    if m < |days| {
      var init := days[..|days| - 1];
      assert init[..m] == days[..m];
      SlotsPrefixShorter(init, m);
    } else {
      assert days[..m] == days;
    }
  }

  /** The tokens of the first m days come first, in the same order. */
  lemma {:induction false} SlotsPrefix(days: seq<DayEntry>, m: nat)
    requires m <= |days|
    ensures |Slots(days[..m])| <= |Slots(days)|
    ensures Slots(days[..m]) == Slots(days)[..|Slots(days[..m])|]
    decreases |days|
  {
    if m < |days| {
      var init := days[..|days| - 1];
      assert init[..m] == days[..m];
      SlotsPrefix(init, m);
    } else {
      assert days[..m] == days;
    }
  }

  /** Day-then-index order: token i (1 <= i <= count) of day e sits at position
      Total(days before e) + i - 1. */
  lemma SlotPosition(days: seq<DayEntry>, e: nat, i: nat)
    requires e < |days| && 1 <= i <= days[e].count
    ensures Total(days[..e]) + i - 1 < |Slots(days)|
    ensures Slots(days)[Total(days[..e]) + i - 1] == Slot(days[e].key, i)
  {
    SlotsPrefix(days, e + 1);
    SlotsCount(days[..e]);
    assert days[..e + 1][..e] == days[..e];
    var ds := DaySlots(days[e].key, Max0(days[e].count));
    assert Slots(days[..e + 1]) == Slots(days[..e]) + ds;
    assert Slots(days[..e + 1])[Total(days[..e]) + i - 1] == ds[i - 1];
  }

  /** Every token belongs to one day of the request and has an index in 1..count. */
  lemma {:induction false} SlotOrigin(days: seq<DayEntry>, k: nat)
    requires k < |Slots(days)|
    ensures exists e :: 0 <= e < |days| && Slots(days)[k].day == days[e].key &&
                        1 <= Slots(days)[k].index <= days[e].count
    decreases |days|
  {
    var n := |days| - 1;
    var init := days[..n];
    if k < |Slots(init)| {
      SlotOrigin(init, k);
      var e :| 0 <= e < |init| && Slots(init)[k].day == init[e].key && 1 <= Slots(init)[k].index <= init[e].count;
      assert days[e] == init[e];
    } else {
      assert Slots(days)[k] == DaySlots(days[n].key, Max0(days[n].count))[k - |Slots(init)|];
    }
  }

  predicate DistinctKeys(days: seq<DayEntry>)
  {
    forall a, b :: 0 <= a < b < |days| ==> days[a].key != days[b].key
  }

  /** With distinct day keys (as `Object.entries` gives them) no token is visited twice. */
  lemma {:induction false} SlotsDistinct(days: seq<DayEntry>)
    requires DistinctKeys(days)
    ensures forall p, q :: 0 <= p < q < |Slots(days)| ==> Slots(days)[p] != Slots(days)[q]
    decreases |days|
  {
    if days != [] {
      var n := |days| - 1;
      var init := days[..n];
      var ds := DaySlots(days[n].key, Max0(days[n].count));
      SlotsDistinct(init);
      forall p, q | 0 <= p < q < |Slots(days)| ensures Slots(days)[p] != Slots(days)[q] {
        if p < |Slots(init)| <= q {
          SlotOrigin(init, p);
          assert Slots(days)[q] == ds[q - |Slots(init)|];
        }
      }
    }
  }

  /** Within one batch all token ids differ, whatever the clock says: the day key and the
      index are part of the id, and days are distinct keys. */
  lemma BatchIdsDistinct(c: Context, days: seq<DayEntry>, stamps: seq<nat>)
    requires DistinctKeys(days) && |Slots(days)| <= |stamps|
    ensures var previews := Previews(c, Slots(days), stamps);
            forall p, q :: 0 <= p < q < |previews| ==> previews[p].tokenId != previews[q].tokenId
  {
    var slots := Slots(days);
    var previews := Previews(c, slots, stamps);
    SlotsDistinct(days);
    forall p, q | 0 <= p < q < |previews| ensures previews[p].tokenId != previews[q].tokenId {
      PreviewsAt(c, slots, stamps, p);
      PreviewsAt(c, slots, stamps, q);
      if TokenId(c, slots[p], stamps[p]) == TokenId(c, slots[q], stamps[q]) {
        TokenIdInjective(c, slots[p], stamps[p], slots[q], stamps[q]);
      }
    }
  }

  /** The table only grows by appending: the old rows stay as they were, and every new
      row is the record of a token of the batch whose lookup did not throw and whose
      create succeeded, with `RedeemedOn` null. */
  lemma {:induction false} StoreRunAppends(rows: seq<Row>, c: Context, slots: seq<Slot>, env: seq<TokenEnv>)
    requires |slots| <= |env|
    ensures var r := StoreRun(rows, c, slots, env);
            |rows| <= |r| <= |rows| + |slots| && r[..|rows|] == rows &&
            forall j :: |rows| <= j < |r| ==>
              r[j].redeemedOn.None? && r[j].flatNo == Resident(c) &&
              exists k :: 0 <= k < |slots| && r[j] == RowOf(c, slots[k], env[k].stamp) &&
                          env[k].create.CreateOk? && !env[k].lookup.LookupFailed?
  {
    if slots != [] {
      var n := |slots| - 1;
      StoreRunAppends(rows, c, slots[..n], env);
      var before := StoreRun(rows, c, slots[..n], env);
      var row := RowOf(c, slots[n], env[n].stamp);
      var r := StoreRun(rows, c, slots, env);
      assert r == StoreStep(before, row, env[n]);
      forall j | |rows| <= j < |r|
        ensures r[j].redeemedOn.None? && r[j].flatNo == Resident(c) &&
                exists k :: 0 <= k < |slots| && r[j] == RowOf(c, slots[k], env[k].stamp) &&
                            env[k].create.CreateOk? && !env[k].lookup.LookupFailed?
      {
        if j < |before| {
          var k :| 0 <= k < n && before[j] == RowOf(c, slots[..n][k], env[k].stamp) &&
                   env[k].create.CreateOk? && !env[k].lookup.LookupFailed?;
          assert r[j] == before[j];
          assert slots[..n][k] == slots[k];
        } else {
          assert r[j] == row;
        }
      }
    }
  }

  predicate UniqueIds(rows: seq<Row>)
  {
    forall a, b :: 0 <= a < b < |rows| ==> rows[a].tokenID != rows[b].tokenID
  }

  /** Create-if-absent never duplicates an id as long as every lookup that succeeded
      listed the matching records. */
  lemma {:induction false} StoreRunKeepsIdsUnique(rows: seq<Row>, c: Context, slots: seq<Slot>, env: seq<TokenEnv>)
    requires |slots| <= |env| && UniqueIds(rows)
    requires forall k :: 0 <= k < |slots| ==> !env[k].lookup.NoRecordsField?
    ensures UniqueIds(StoreRun(rows, c, slots, env))
  {
    if slots != [] {
      var n := |slots| - 1;
      StoreRunKeepsIdsUnique(rows, c, slots[..n], env);
      var before := StoreRun(rows, c, slots[..n], env);
      var row := RowOf(c, slots[n], env[n].stamp);
      var r := StoreRun(rows, c, slots, env);
      if r != before {
        assert r == before + [row] && !HasToken(before, row.tokenID);
        forall a, b | 0 <= a < b < |r| ensures r[a].tokenID != r[b].tokenID {
          if b == |before| {
            assert r[a] == before[a];
          }
        }
      }
    }
  }

  lemma {:induction false} ItemsOfAppend(c: Context, a: seq<Slot>, b: seq<Slot>)
    ensures ItemsOf(c, a + b) == ItemsOf(c, a) + ItemsOf(c, b)
    decreases |b|
  {
    if b != [] {
      var n := |b| - 1;
      assert (a + b)[..|a + b| - 1] == a + b[..n];
      assert (a + b)[|a + b| - 1] == b[n];
      ItemsOfAppend(c, a, b[..n]);
      Assoc3(ItemsOf(c, a), ItemsOf(c, b[..n]), [ItemOf(c, b[n])]);
    } else {
      assert a + b == a;
    }
  }

  /** The day list shows every issued token once, in issuance order. */
  lemma {:induction false} DayListInTokenOrder(c: Context, days: seq<DayEntry>)
    ensures Flatten(Sections(c, days)) == ItemsOf(c, Slots(days))
    decreases |days|
  {
    if days != [] {
      var n := |days| - 1;
      var init := days[..n];
      var last := days[n];
      DayListInTokenOrder(c, init);
      ItemsOfAppend(c, Slots(init), DaySlots(last.key, Max0(last.count)));
      var ss := Sections(c, init);
      if last.count > 0 {
        var s := Section(last.key, last.count, ItemsOf(c, DaySlots(last.key, last.count)));
        assert Sections(c, days) == ss + [s];
        assert (ss + [s])[..|ss|] == ss;
      } else {
        assert Sections(c, days) == ss;
        assert DaySlots(last.key, 0) == [];
      }
    }
  }

  /** The k-th image of the day list refers, by content id, to the inline attachment of
      the k-th token. */
  lemma DayListMatchesAttachments(c: Context, days: seq<DayEntry>, stamps: seq<nat>)
    requires |Slots(days)| <= |stamps|
    ensures var items := Flatten(Sections(c, days));
            var attachments := Attachments(c, Slots(days), stamps);
            |attachments| == 2 * |items| &&
            forall k :: 0 <= k < |items| ==> attachments[2 * k + 1].cid == Some(items[k].cid)
  {
    var slots := Slots(days);
    var items := Flatten(Sections(c, days));
    DayListInTokenOrder(c, days);
    forall k | 0 <= k < |items| ensures Attachments(c, slots, stamps)[2 * k + 1].cid == Some(items[k].cid) {
      ItemsOfAt(c, slots, k);
      AttachmentsAt(c, slots, stamps, k);
    }
  }

  /** Token i of day e is the preview and the attachment pair at its day-then-index
      position: after the tokens of the earlier days. */
  lemma IssuedInDayOrder(c: Context, days: seq<DayEntry>, stamps: seq<nat>, e: nat, i: nat)
    requires |Slots(days)| <= |stamps| && e < |days| && 1 <= i <= days[e].count
    ensures var k := Total(days[..e]) + i - 1;
            var slot := Slot(days[e].key, i);
            k < |Slots(days)| &&
            Previews(c, Slots(days), stamps)[k] == PreviewOf(c, slot, stamps[k]) &&
            Attachments(c, Slots(days), stamps)[2 * k] == PlainAttachment(c, slot, stamps[k]) &&
            Attachments(c, Slots(days), stamps)[2 * k + 1] == InlineAttachment(c, slot, stamps[k])
  {
    var k := Total(days[..e]) + i - 1;
    SlotPosition(days, e, i);
    PreviewsAt(c, Slots(days), stamps, k);
    AttachmentsAt(c, Slots(days), stamps, k);
  }

  /** What the table answers, and whether it fails, changes neither the response nor the
      mail: a failed lookup or create is swallowed and the token is still issued. */
  lemma StoreRepliesDoNotMatter(req: Request, env1: seq<TokenEnv>, env2: seq<TokenEnv>,
                                mailFault: Option<Fault>, rows1: seq<Row>, rows2: seq<Row>)
    requires req.body.Parsed? ==> |Slots(EntriesOf(req.body.fields))| <= |env1|
    requires StampsOf(env1) == StampsOf(env2)
    ensures Outcome(req, env1, mailFault, rows1).response == Outcome(req, env2, mailFault, rows2).response
    ensures Outcome(req, env1, mailFault, rows1).mail == Outcome(req, env2, mailFault, rows2).mail
  {
  }

  /** The days that get a section: those whose count is positive, in order. */
  function DaysWithTokens(days: seq<DayEntry>): seq<DayEntry>
  {
    if days == [] then []
    else
      var last := days[|days| - 1];
      DaysWithTokens(days[..|days| - 1]) + (if last.count > 0 then [last] else [])
  }

  /** The day list has one section per day with a positive count, in order, holding
      exactly `count` items: token 1 to `count` of that day. */
  lemma {:induction false} SectionsShape(c: Context, days: seq<DayEntry>)
    ensures var r := Sections(c, days);
            var shown := DaysWithTokens(days);
            |r| == |shown| &&
            forall k :: 0 <= k < |r| ==>
              r[k].day == shown[k].key && r[k].count == shown[k].count > 0 &&
              |r[k].items| == r[k].count && r[k].items == ItemsOf(c, DaySlots(r[k].day, r[k].count))
    decreases |days|
  {
    if days != [] {
      var n := |days| - 1;
      SectionsShape(c, days[..n]);
    }
  }
}
