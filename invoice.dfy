/** create_invoice_data (invoices.py:80-115): the operator's answers and the grouped items become the payload. */
module Invoice {
  import opened Types
  import opened Seqs
  import opened Decimal
  import opened Grouping

  /** The zero-priced line that opens the lines of one order. */
  function HeaderLine(orderNumber: string): InvoiceLine
  {
    InvoiceLine("\nOrder No. " + orderNumber, Num(1), Num(0), "0")
  }

  /** The billable line of one item: its name, quantity and price, at 21 % VAT. */
  function ItemLine(item: Item): InvoiceLine
  {
    InvoiceLine(item.name, Text(item.quantity), Text(item.price), "21")
  }

  function ItemLines(group: seq<Item>): seq<InvoiceLine>
  {
    seq(|group|, t requires 0 <= t < |group| => ItemLine(group[t]))
  }

  /** The header of order key followed by the lines of that order's items. */
  function Block(key: string, items: seq<Item>): seq<InvoiceLine>
  {
    [HeaderLine(key)] + ItemLines(ItemsWithOrder(items, key))
  }

  /** The blocks of the given orders, one after the other. */
  function LinesOf(keys: seq<string>, items: seq<Item>): seq<InvoiceLine>
  {
    if keys == [] then [] else LinesOf(keys[..|keys| - 1], items) + Block(keys[|keys| - 1], items)
  }

  /** The lines of the invoice: one block per order, orders in first-occurrence order. */
  function InvoiceLines(items: seq<Item>): seq<InvoiceLine>
  {
    LinesOf(GroupKeys(items), items)
  }

  const NoteBasis := "Invoicing based on order:"
  const NotePrefix := "Delivery Note No. "
  const NoteSuffix := " \n" + NoteBasis

  /** The invoice note for the operator's delivery-note answer. */
  function NoteText(answer: string): (note: string)
    ensures |note| >= |NoteBasis| && note[|note| - |NoteBasis|..] == NoteBasis
    ensures note == NoteBasis <==> answer == []
  {
    if answer != [] then NotePrefix + answer + NoteSuffix else NoteBasis
  }

  /** Recovers the delivery-note answer from a note, the partner of NoteText. */
  function NoteAnswer(note: string): string
  {
    if |note| >= |NotePrefix| + |NoteSuffix| && note[..|NotePrefix|] == NotePrefix
    then note[|NotePrefix|..|note| - |NoteSuffix|]
    else []
  }

  /** The answer can be read back from the note: NoteText loses nothing and maps distinct answers apart. */
  lemma NoteRoundTrip(answer: string)
    ensures NoteAnswer(NoteText(answer)) == answer
  {
    var note := NoteText(answer);
    if answer != [] {
      assert note[..|NotePrefix|] == NotePrefix;
      assert note[|NotePrefix|..|note| - |NoteSuffix|] == answer;
    } else {
      assert note[0] != NotePrefix[0];
    }
  }

  /** The prompt loop: ask again while the answer is not all digits. */
  method PromptInvoiceNumber(answers: seq<string>) returns (n: nat)
    ensures n == FirstIndex(answers, IsDigitString)
  {
    n := 0;
    while n < |answers| && !IsDigitString(answers[n])
      invariant n <= |answers|
      invariant forall j :: 0 <= j < n ==> !IsDigitString(answers[j])
    {
      n := n + 1;
    }
  }

  lemma ItemLinesStep(group: seq<Item>, j: nat)
    requires j < |group|
    ensures ItemLines(group[..j + 1]) == ItemLines(group[..j]) + [ItemLine(group[j])]
  {
  }

  lemma LinesOfStep(keys: seq<string>, items: seq<Item>, i: nat)
    requires i < |keys|
    ensures LinesOf(keys[..i + 1], items) == LinesOf(keys[..i], items) + Block(keys[i], items)
  {
    assert keys[..i + 1][..i] == keys[..i];
  }

  /** One pass of the outer loop: append the order's header, then one line per item of its group. */
  method AppendBlock(lines: seq<InvoiceLine>, key: string, group: seq<Item>) returns (lines': seq<InvoiceLine>)
    ensures lines' == lines + [HeaderLine(key)] + ItemLines(group)
  {
    lines' := lines + [HeaderLine(key)];
    for j := 0 to |group|
      invariant lines' == lines + [HeaderLine(key)] + ItemLines(group[..j])
    {
      ItemLinesStep(group, j);
      lines' := lines' + [ItemLine(group[j])];
    }
    assert group[..|group|] == group;
  }

  /** The nested loops that append a header and then the item lines of every group, in key order. */
  method LayOutLines(items: seq<Item>, groups: Groups) returns (lines: seq<InvoiceLine>)
    requires forall key :: key in groups.keys ==>
               key in groups.members && groups.members[key] == ItemsWithOrder(items, key)
    ensures lines == LinesOf(groups.keys, items)
  {
    var keys := groups.keys;
    lines := [];
    for i := 0 to |keys|
      invariant lines == LinesOf(keys[..i], items)
    {
      var key := keys[i];
      lines := AppendBlock(lines, key, groups.members[key]);
      LinesOfStep(keys, items, i);
    }
    assert keys[..|keys|] == keys;
  }

  /**
   * create_invoice_data: read the invoice number (re-prompting), then the delivery-note answer,
   * group the items, and lay out one header plus item lines per order. Running out of answers
   * is EOFError; an empty item list fails at items[0].
   */
  method CreateInvoiceData(items: seq<Item>, answers: seq<string>, subjectId: string) returns (r: Result<Payload>)
    ensures var n := FirstIndex(answers, IsDigitString);
            if n + 1 >= |answers| then r == Err(EndOfInput)
            else if items == [] then r == Err(NoItems)
            else r == Ok(Payload(answers[n], NoteText(answers[n + 1]), subjectId,
                                 items[0].deliveryDate, InvoiceLines(items)))
    ensures r.Ok? ==> IsDigitString(r.value.number)
  {
    var n := PromptInvoiceNumber(answers);
    if n >= |answers| {
      return Err(EndOfInput);
    }
    var number := answers[n];
    if n + 1 >= |answers| {
      return Err(EndOfInput);
    }
    var note := NoteText(answers[n + 1]);
    var groups := GroupItemsByOrderNumber(items);
    if |items| == 0 {
      return Err(NoItems);
    }
    var lines := LayOutLines(items, groups);
    return Ok(Payload(number, note, subjectId, items[0].deliveryDate, lines));
  }

  lemma {:induction false} LinesLength(keys: seq<string>, items: seq<Item>)
    ensures |LinesOf(keys, items)| == |keys| + SumSizes(keys, items)
    decreases |keys|
  {
    if keys != [] {
      LinesLength(keys[..|keys| - 1], items);
    }
  }

  /** One header per distinct order plus one line per item. */
  lemma InvoiceLinesLength(items: seq<Item>)
    ensures |InvoiceLines(items)| == |items| + |GroupKeys(items)|
  {
    LinesLength(GroupKeys(items), items);
    GroupSizesSum(items);
  }

  lemma {:induction false} LinesPrefix(keys: seq<string>, items: seq<Item>, m: nat)
    requires m <= |keys|
    ensures LinesOf(keys[..m], items) <= LinesOf(keys, items)
    decreases |keys|
  {
    if m < |keys| {
      var init := keys[..|keys| - 1];
      assert init[..m] == keys[..m];
      LinesPrefix(init, items, m);
    } else {
      assert keys[..m] == keys;
    }
  }

  /** The header of the j-th order starts right after the blocks of the earlier orders, with room for all its items. */
  lemma BlockLayout(keys: seq<string>, items: seq<Item>, j: nat)
    requires j < |keys|
    ensures |LinesOf(keys[..j], items)| + 1 + |ItemsWithOrder(items, keys[j])| <= |LinesOf(keys, items)|
    ensures LinesOf(keys, items)[|LinesOf(keys[..j], items)|] == HeaderLine(keys[j])
  {
    LinesOfStep(keys, items, j);
    LinesPrefix(keys, items, j + 1);
  }

  /** Right after that header come the lines of the order's items, in input order. */
  lemma BlockItemAt(keys: seq<string>, items: seq<Item>, j: nat, t: nat)
    requires j < |keys| && t < |ItemsWithOrder(items, keys[j])|
    ensures |LinesOf(keys[..j], items)| + 1 + t < |LinesOf(keys, items)|
    ensures LinesOf(keys, items)[|LinesOf(keys[..j], items)| + 1 + t] == ItemLine(ItemsWithOrder(items, keys[j])[t])
  {
    var before, block := LinesOf(keys[..j], items), Block(keys[j], items);
    LinesOfStep(keys, items, j);
    LinesPrefix(keys, items, j + 1);
    assert (before + block)[|before| + 1 + t] == block[1 + t];
  }

  predicate IsHeader(line: InvoiceLine)
  {
    line.quantity.Num?
  }

  function HeaderLines(keys: seq<string>): seq<InvoiceLine>
  {
    seq(|keys|, j requires 0 <= j < |keys| => HeaderLine(keys[j]))
  }

  lemma NoHeaderAmongItems(group: seq<Item>)
    ensures Filter(ItemLines(group), IsHeader) == []
  {
    FilterNone(ItemLines(group), IsHeader);
  }

  lemma BlockHeaders(key: string, items: seq<Item>)
    ensures Filter(Block(key, items), IsHeader) == [HeaderLine(key)]
  {
    var body := ItemLines(ItemsWithOrder(items, key));
    FilterConcat([HeaderLine(key)], body, IsHeader);
    FilterAppend([], HeaderLine(key), IsHeader);
    assert [] + [HeaderLine(key)] == [HeaderLine(key)];
    NoHeaderAmongItems(ItemsWithOrder(items, key));
  }

  lemma HeaderLinesStep(keys: seq<string>)
    requires keys != []
    ensures HeaderLines(keys) == HeaderLines(keys[..|keys| - 1]) + [HeaderLine(keys[|keys| - 1])]
  {
  }

  /** The header lines, read in order, are exactly one header per listed order. */
  lemma {:induction false} HeadersOfLines(keys: seq<string>, items: seq<Item>)
    ensures Filter(LinesOf(keys, items), IsHeader) == HeaderLines(keys)
    decreases |keys|
  {
    if keys != [] {
      var init, last := keys[..|keys| - 1], keys[|keys| - 1];
      assert LinesOf(keys, items) == LinesOf(init, items) + Block(last, items);
      HeadersOfLines(init, items);
      FilterConcat(LinesOf(init, items), Block(last, items), IsHeader);
      BlockHeaders(last, items);
      HeaderLinesStep(keys);
    }
  }

  /** The invoice has one header per distinct order number, no two for the same order. */
  lemma InvoiceHeaders(items: seq<Item>)
    ensures Filter(InvoiceLines(items), IsHeader) == HeaderLines(GroupKeys(items))
    ensures |GroupKeys(items)| == |OrderNumbers(items)|
  {
    HeadersOfLines(GroupKeys(items), items);
    var keys := GroupKeys(items);
    DistinctCount(keys);
    assert (set key | key in keys) == OrderNumbers(items);
  }
}
