/** The main scraper: one product page per item number, parsed for its name,
    the first dollar amount outside scripts, and the case pack written in the
    page's notes; the products are collected one per item. */
module PacificGiftware {
  import opened Outcomes
  import opened Text
  import opened Cascade
  import opened Dom
  import opened Records

  /** What one product page yields; a price or quantity may be missing. */
  datatype ProductInfo = ProductInfo(itemNumber: string, productName: string,
                                     unitPrice: Option<string>, caseQuantity: Option<string>)

  /** `ProductInfo.to_dict`: the CSV row, with a missing value written as "". */
  function ToDict(p: ProductInfo): (d: map<string, string>)
    ensures d.Keys == {"Item Number", "Product Name", "Unit Price", "Case Quantity"}
    ensures d["Item Number"] == p.itemNumber && d["Product Name"] == p.productName
    ensures p.unitPrice.None? ==> d["Unit Price"] == ""
    ensures p.unitPrice.Some? ==> d["Unit Price"] == p.unitPrice.value
    ensures p.caseQuantity.None? ==> d["Case Quantity"] == ""
    ensures p.caseQuantity.Some? ==> d["Case Quantity"] == p.caseQuantity.value
  {
    map["Item Number" := p.itemNumber,
        "Product Name" := p.productName,
        "Unit Price" := p.unitPrice.GetOr(""),
        "Case Quantity" := p.caseQuantity.GetOr("")]
  }

  /** An optional value read back from a CSV cell, "" meaning missing. */
  function Cell(v: string): Option<string> {
    if v == "" then None else Some(v)
  }

  /** A CSV row read back as a product. */
  function FromDict(d: map<string, string>): ProductInfo
    requires "Item Number" in d && "Product Name" in d && "Unit Price" in d && "Case Quantity" in d
  {
    ProductInfo(d["Item Number"], d["Product Name"], Cell(d["Unit Price"]), Cell(d["Case Quantity"]))
  }

  /** A written row reads back as the same product exactly when no optional
      value is the empty string (which the row cannot tell from a missing one). */
  lemma RowRoundTrip(p: ProductInfo)
    ensures FromDict(ToDict(p)) == p <==> (p.unitPrice != Some("") && p.caseQuantity != Some(""))
  {
    var d := ToDict(p);
    if p.unitPrice == Some("") {
      assert FromDict(d).unitPrice == None;
    }
    if p.caseQuantity == Some("") {
      assert FromDict(d).caseQuantity == None;
    }
  }

  // ---------------------------------------------------------------------------
  // extract_case_quantity_from_notes

  /** What one notes line yields: for a line mentioning "case pack" (any case),
      the digits of the part between its first and second `:` when that part
      has any, else all the digits of the line. */
  function LineQuantity(line: string): (r: Option<string>)
    ensures r.Some? ==> r.value != [] && AllDigits(r.value)
  {
    if !Contains(Lower(line), "case pack") then None
    else
      var fromColon := match SecondPart(line, ":") case Some(seg) => Digits(Strip(seg)) case None => [];
      if fromColon != [] then Some(fromColon)
      else
        var all := Digits(line);
        if all != [] then Some(all) else None
  }

  /** Only lines mentioning "case pack" count, and each such line with a digit
      yields one; the part after the first colon has priority when it holds
      digits; without a colon, or when that part has none, the line yields
      all of its digits, and nothing when it has none. */
  lemma LineQuantityMeaning(line: string)
    ensures !Contains(Lower(line), "case pack") ==> LineQuantity(line).None?
    ensures Contains(Lower(line), "case pack") && HasDigit(line) ==> LineQuantity(line).Some?
    ensures LineQuantity(line).Some? && !Contains(line, ":") ==> LineQuantity(line).value == Digits(line)
    ensures Contains(Lower(line), "case pack") && Contains(line, ":")
            && Digits(Strip(SecondPart(line, ":").value)) != []
            ==> LineQuantity(line) == Some(Digits(Strip(SecondPart(line, ":").value)))
    ensures Contains(Lower(line), "case pack") && Digits(Strip(SecondPart(line, ":").GetOr(""))) == []
            ==> LineQuantity(line) == (if Digits(line) == [] then None else Some(Digits(line)))
  {
    assert Strip("") == "" by { StripIdempotent(""); }
    if HasDigit(line) {
      var k :| 0 <= k < |line| && IsDigit(line[k]);
    }
  }

  /** The case quantity the notes text states: the first line that yields one. */
  function CaseQuantityFromNotes(notes: string): Option<string> {
    if notes == [] then None else FirstMatch(Lines(notes), LineQuantity)
  }

  /** Empty notes state nothing; any quantity stated is a non-empty run of
      digits; nothing is stated exactly when the notes are empty or no line
      yields digits (in particular when no line mentions "case pack"); and
      the first line that yields digits decides, whatever later lines say. */
  lemma {:induction false} NotesQuantity(notes: string)
    ensures notes == [] ==> CaseQuantityFromNotes(notes).None?
    ensures CaseQuantityFromNotes(notes).Some? ==>
              CaseQuantityFromNotes(notes).value != [] && AllDigits(CaseQuantityFromNotes(notes).value)
    ensures (forall i :: 0 <= i < |Lines(notes)| ==> !Contains(Lower(Lines(notes)[i]), "case pack"))
            ==> CaseQuantityFromNotes(notes).None?
    ensures CaseQuantityFromNotes(notes).None? <==>
              notes == [] || forall i :: 0 <= i < |Lines(notes)| ==> LineQuantity(Lines(notes)[i]).None?
    ensures forall i: nat :: WinsAt(Lines(notes), LineQuantity, i) ==>
              CaseQuantityFromNotes(notes) == LineQuantity(Lines(notes)[i])
  {
    if notes != [] {
      var lines := Lines(notes);
      FirstMatchIsWinner(lines, LineQuantity);
      match Winner(lines, LineQuantity)
      case None =>
      case Some(w) =>
        assert CaseQuantityFromNotes(notes) == LineQuantity(lines[w]);
    }
  }

  /** The body of the notes loop for one line. */
  method QuantityOfLine(line: string) returns (q: Option<string>)
    ensures q == LineQuantity(line)
  {
    if Contains(Lower(line), "case pack") {
      var parts := SecondPart(line, ":");
      var fromColon := if parts.Some? then Digits(Strip(parts.value)) else [];
      if parts.Some? && fromColon != [] {
        return Some(fromColon);
      }
      var digits := Digits(line);
      if digits != [] {
        return Some(digits);
      }
    }
    return None;
  }

  /** The notes loop as written: each line in turn, returning at the first
      line that yields digits. */
  method ExtractCaseQuantityFromNotes(notes: string) returns (r: Option<string>)
    ensures r == CaseQuantityFromNotes(notes)
  {
    if notes == [] {
      return None;
    }
    var lines := Lines(notes);
    var i := 0;
    while i < |lines|
      invariant i <= |lines|
      invariant FirstMatch(lines[i..], LineQuantity) == FirstMatch(lines, LineQuantity)
    {
      var rest := lines[i..];
      assert rest[1..] == lines[i + 1..];
      var q := QuantityOfLine(lines[i]);
      assert q == LineQuantity(rest[0]);
      if q.Some? {
        return q;
      }
      i := i + 1;
    }
    return None;
  }

  // ---------------------------------------------------------------------------
  // get_product_details

  /** A text node as a price: it contains `$`, lies outside script and style,
      and its stripped text starts with `$` and holds a digit. */
  function PriceText(n: TextNode): (r: Option<string>)
    ensures r.Some? <==> (n.parent != "script" && n.parent != "style" && Strip(n.text) != []
                          && Strip(n.text)[0] == '$' && HasDigit(Strip(n.text)))
    ensures r.Some? ==> r.value == Strip(n.text)
  {
    var t := Strip(n.text);
    StripHead(n.text);
    if !Contains(n.text, "$") || n.parent == "script" || n.parent == "style" then None
    else if t != [] && t[0] == '$' && HasDigit(t) then Some(t)
    else None
  }

  /** The unit price: the first price text in document order. */
  function UnitPrice(nodes: seq<TextNode>): Option<string> {
    FirstMatch(nodes, PriceText)
  }

  /** The price, when there is one, is the stripped text of the earliest text
      node that qualifies, and there is none exactly when no node qualifies. */
  lemma UnitPriceIsEarliest(nodes: seq<TextNode>)
    ensures UnitPrice(nodes).None? <==> forall i :: 0 <= i < |nodes| ==> PriceText(nodes[i]).None?
    ensures UnitPrice(nodes).Some? ==>
              exists i :: 0 <= i < |nodes| && WinsAt(nodes, PriceText, i)
                          && UnitPrice(nodes) == Some(Strip(nodes[i].text))
  {
    FirstMatchIsWinner(nodes, PriceText);
    if UnitPrice(nodes).Some? {
      var w := Winner(nodes, PriceText).value;
      assert UnitPrice(nodes) == Some(Strip(nodes[w].text));
    }
  }

  /** The text node reading "Notes:" (ignoring case and surrounding space). */
  function NotesLabel(n: TextNode): (r: Option<TextNode>)
    ensures r.Some? ==> r.value == n && Lower(Strip(n.text)) == "notes:"
  {
    if Lower(Strip(n.text)) == "notes:" then Some(n) else None
  }

  /** The case quantity: read from the element after the first "Notes:" label. */
  function NotesQuantityOf(nodes: seq<TextNode>): Option<string> {
    match FirstMatch(nodes, NotesLabel)
    case None => None
    case Some(tag) => CaseQuantityFromNotes(tag.siblingText.GetOr(""))
  }

  /** `get_product_details`: raises when the page fails to load or never shows
      an `h1`; otherwise the product is named after the stripped `h1`, priced
      by the earliest qualifying text node (none when no node qualifies), and
      its case quantity is read from the notes after the first "Notes:" label
      (none without such a label). */
  function ProductDetails(s: Session, item: string): (r: Result<ProductInfo>)
    ensures r.Success? ==> r.value.itemNumber == item
    ensures r.Success? <==> Navigate(s, ProductUrl(item)).Success? && Present(Navigate(s, ProductUrl(item)).value, H1)
    ensures r.Success? ==>
              var p := Navigate(s, ProductUrl(item)).value;
              && r.value.productName == Strip(FindElement(p, H1).value)
              && (r.value.unitPrice.None? <==> forall i :: 0 <= i < |p.nodes| ==> PriceText(p.nodes[i]).None?)
              && (forall i: nat :: WinsAt(p.nodes, PriceText, i) ==> r.value.unitPrice == Some(Strip(p.nodes[i].text)))
              && ((forall i :: 0 <= i < |p.nodes| ==> NotesLabel(p.nodes[i]).None?) ==> r.value.caseQuantity.None?)
              && (forall i: nat :: WinsAt(p.nodes, NotesLabel, i) ==>
                    r.value.caseQuantity == CaseQuantityFromNotes(p.nodes[i].siblingText.GetOr("")))
  {
    match Navigate(s, ProductUrl(item))
    case Failure(e) => Failure(e)
    case Success(p) =>
      if !Present(p, H1) then Failure("timed out waiting for h1")
      else
        FirstMatchIsWinner(p.nodes, PriceText);
        FirstMatchIsWinner(p.nodes, NotesLabel);
        Success(ProductInfo(item, Strip(FindElement(p, H1).value), UnitPrice(p.nodes), NotesQuantityOf(p.nodes)))
  }

  /** The page parse as the source runs it, with its two scanning loops. */
  method GetProductDetails(s: Session, item: string) returns (r: Result<ProductInfo>)
    ensures r == ProductDetails(s, item)
  {
    var loaded := Navigate(s, ProductUrl(item));
    if loaded.Failure? {
      return Failure(loaded.error);
    }
    var p := loaded.value;
    if !Present(p, H1) {
      return Failure("timed out waiting for h1");
    }
    var name := Strip(FindElement(p, H1).value);
    var price, _ := FindFirst(p.nodes, PriceText);
    var notes, _ := FindFirst(p.nodes, NotesLabel);
    var quantity := None;
    if notes.Some? {
      quantity := ExtractCaseQuantityFromNotes(notes.value.siblingText.GetOr(""));
    }
    return Success(ProductInfo(item, name, price, quantity));
  }

  // ---------------------------------------------------------------------------
  // process_items

  /** The product recorded for one item: a failed page gives an empty name
      and no price or quantity. */
  function ItemProduct(s: Session, item: string): (r: ProductInfo)
    ensures r.itemNumber == item
    ensures ProductDetails(s, item).Failure? ==> r == ProductInfo(item, "", None, None)
  {
    match ProductDetails(s, item)
    case Success(info) => info
    case Failure(_) => ProductInfo(item, "", None, None)
  }

  /** `process_items`: nothing is written for an empty list, nor when the
      login (`loggedIn` says whether it returned) raises; otherwise there is
      one product per item, in input order. */
  method ProcessItems(s: Session, items: seq<string>, loggedIn: bool) returns (written: Option<seq<ProductInfo>>)
    ensures written.None? <==> items == [] || !loggedIn
    ensures written.Some? ==> |written.value| == |items|
    ensures written.Some? ==> forall i :: 0 <= i < |items| ==>
              written.value[i] == ItemProduct(s, items[i]) && written.value[i].itemNumber == items[i]
  {
    if items == [] || !loggedIn {
      return None;
    }
    var products := MapItems(items, item => ItemProduct(s, item));
    return Some(products);
  }
}
