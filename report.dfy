/** Aggregation of the probe's entries into the plugin's exit code and its
    report text. */
module Report {
  import opened Text
  import opened Status
  import opened Probe

  /** The placeholder description used when nothing was found. */
  function ParseFailedMessage(url: string): string {
    "Unable to parse \"" + url + "\"."
  }

  /** The entries the report is built from: the probe's entries, or the
      single UNKNOWN placeholder when there are none. */
  function Padded(url: string, items: seq<Entry>): (r: seq<Entry>)
    ensures r != []
    ensures items != [] ==> r == items
  {
    if items == [] then [Entry(StatusUnknown, ParseFailedMessage(url))] else items
  }

  /** The overall exit code: the largest code among the entries. */
  function MaxCode(es: seq<Entry>): (r: int)
    requires es != []
    ensures exists k :: 0 <= k < |es| && es[k].code == r
    ensures forall k :: 0 <= k < |es| ==> es[k].code <= r
  {
    if |es| == 1 then es[0].code
    else
      var rest := MaxCode(es[1..]);
      assert forall k :: 1 <= k < |es| ==> es[k] == es[1..][k - 1];
      if es[0].code >= rest then es[0].code else rest
  }

  /** The descriptions of the entries with the given code, in entry order. */
  function Descriptions(es: seq<Entry>, code: int): seq<string> {
    if es == [] then []
    else
      var last := es[|es| - 1];
      Descriptions(es[..|es| - 1], code) + (if last.code == code then [last.description] else [])
  }

  /** A bucket is empty exactly when no entry has its code. */
  lemma {:induction false} DescriptionsEmptyIff(es: seq<Entry>, code: int)
    ensures Descriptions(es, code) == [] <==> forall k :: 0 <= k < |es| ==> es[k].code != code
  {
    if es != [] {
      var init := es[..|es| - 1];
      assert forall k :: 0 <= k < |init| ==> init[k] == es[k];
      DescriptionsEmptyIff(init, code);
    }
  }

  /** The report line of one tier. */
  function TierLine(es: seq<Entry>, code: Code): string
  {
    TierName(code) + ": " + Join(", ", Descriptions(es, code))
  }

  /** The line a tier contributes to the report: none when it is empty. */
  function TierSlot(es: seq<Entry>, code: Code): seq<string>
  {
    if Descriptions(es, code) == [] then [] else [TierLine(es, code)]
  }

  /** The lines of the report: one for each tier, taken in the given
      order, that holds at least one entry. */
  function TierLines(es: seq<Entry>, tiers: seq<Code>): seq<string>
  {
    if tiers == [] then [] else TierSlot(es, tiers[0]) + TierLines(es, tiers[1..])
  }

  /** The report's lines are the UNKNOWN, CRITICAL, WARNING and OK slots,
      in that order. */
  lemma TierLinesInOrder(es: seq<Entry>)
    ensures TierLines(es, TierOrder) ==
      TierSlot(es, StatusUnknown) + (TierSlot(es, StatusCritical)
      + (TierSlot(es, StatusWarn) + TierSlot(es, StatusOk)))
  {
    var t1 := TierOrder[1..];
    var t2 := t1[1..];
    var t3 := t2[1..];
    assert TierLines(es, t3) == TierSlot(es, StatusOk);
    assert TierLines(es, t2) == TierSlot(es, StatusWarn) + TierSlot(es, StatusOk);
  }

  /** Taking one more tier appends that tier's slot. */
  lemma TierLinesPrefix(es: seq<Entry>, tiers: seq<Code>, k: nat)
    requires k < |tiers|
    ensures TierLines(es, tiers[..k + 1]) == TierLines(es, tiers[..k]) + TierSlot(es, tiers[k])
  {
    assert tiers[..k + 1] == tiers[..k] + [tiers[k]];
    TierLinesConcat(es, tiers[..k], [tiers[k]]);
    assert [tiers[k]][1..] == [];
  }

  /** The report text: the tier lines, most urgent first, one per line. */
  function ReportText(es: seq<Entry>): string {
    Join("\n", TierLines(es, TierOrder))
  }

  /** Aggregation as the plugin performs it: pad an empty result with the
      placeholder, take the maximum code, and format the report. */
  method BuildReport(url: string, items: seq<Entry>) returns (code: int, text: string)
    ensures code == MaxCode(Padded(url, items))
    ensures text == ReportText(Padded(url, items))
  {
    var es := items;
    if es == [] {
      es := es + [Entry(StatusUnknown, ParseFailedMessage(url))];
    }
    assert es == Padded(url, items);
    code := MaxCode(es);
    text := FormatReport(es);
  }

  /** Buckets the descriptions by code and appends one line per non-empty
      bucket, most urgent first; the lines are joined with newlines. */
  method FormatReport(es: seq<Entry>) returns (text: string)
    ensures text == ReportText(es)
  {
    var itemsOk := Descriptions(es, StatusOk);
    var itemsWarn := Descriptions(es, StatusWarn);
    var itemsCritical := Descriptions(es, StatusCritical);
    var itemsUnknown := Descriptions(es, StatusUnknown);
    var lines: seq<string> := [];
    assert TierOrder[..0] == [];
    lines := AppendTier(es, TierOrder, 0, "UNKNOWN: ", itemsUnknown, lines);
    lines := AppendTier(es, TierOrder, 1, "CRITICAL: ", itemsCritical, lines);
    lines := AppendTier(es, TierOrder, 2, "WARNING: ", itemsWarn, lines);
    lines := AppendTier(es, TierOrder, 3, "OK: ", itemsOk, lines);
    assert TierOrder[..4] == TierOrder;
    text := Join("\n", lines);
  }

  /** Appends the line of tier `tiers[k]` when its bucket `items` is
      non-empty; the lines so far are those of the tiers before it. */
  method AppendTier(es: seq<Entry>, tiers: seq<Code>, k: nat, heading: string,
                    items: seq<string>, lines: seq<string>) returns (r: seq<string>)
    requires k < |tiers|
    requires heading == TierName(tiers[k]) + ": "
    requires items == Descriptions(es, tiers[k])
    requires lines == TierLines(es, tiers[..k])
    ensures r == TierLines(es, tiers[..k + 1])
  {
    r := lines;
    if items != [] {
      r := r + [heading + Join(", ", items)];
    }
    TierLinesPrefix(es, tiers, k);
  }

  /** A tier line is its label, a colon and a space, then the descriptions. */
  lemma LabelledLine(es: seq<Entry>, code: Code)
    ensures TierLine(es, code) == (TierName(code) + ": ") + Join(", ", Descriptions(es, code))
    ensures code == StatusUnknown ==> TierName(code) + ": " == "UNKNOWN: "
    ensures code == StatusCritical ==> TierName(code) + ": " == "CRITICAL: "
    ensures code == StatusWarn ==> TierName(code) + ": " == "WARNING: "
    ensures code == StatusOk ==> TierName(code) + ": " == "OK: "
  {
  }

  /** Bucketing preserves order: the descriptions of a concatenation are
      those of its parts, one after the other. */
  lemma {:induction false} DescriptionsConcat(a: seq<Entry>, b: seq<Entry>, code: int)
    ensures Descriptions(a + b, code) == Descriptions(a, code) + Descriptions(b, code)
  {
    if b == [] {
      assert a + b == a;
    } else {
      var b' := b[..|b| - 1];
      assert (a + b)[..|a + b| - 1] == a + b';
      assert (a + b)[|a + b| - 1] == b[|b| - 1];
      DescriptionsConcat(a, b', code);
    }
  }

  /** The lines for a concatenation of tier lists are the lines of each list,
      in that order. */
  lemma {:induction false} TierLinesConcat(es: seq<Entry>, a: seq<Code>, b: seq<Code>)
    ensures TierLines(es, a + b) == TierLines(es, a) + TierLines(es, b)
  {
    if a == [] {
      assert a + b == b;
    } else {
      assert (a + b)[1..] == a[1..] + b;
      TierLinesConcat(es, a[1..], b);
    }
  }

  /** Every entry with a monitoring-plugin code lands in exactly one tier:
      the four buckets together hold as many descriptions as there are
      entries. */
  lemma {:induction false} EveryEntryInOneTier(es: seq<Entry>)
    requires forall k :: 0 <= k < |es| ==> IsCode(es[k].code)
    ensures |Descriptions(es, StatusUnknown)| + |Descriptions(es, StatusCritical)|
          + |Descriptions(es, StatusWarn)| + |Descriptions(es, StatusOk)| == |es|
  {
    if es != [] {
      var init := es[..|es| - 1];
      assert forall k :: 0 <= k < |init| ==> init[k] == es[k];
      EveryEntryInOneTier(init);
    }
  }

  /** A tier has a line in the report exactly when some entry has its code. */
  lemma TierLinePresentIff(es: seq<Entry>, code: Code)
    ensures TierLine(es, code) in TierLines(es, TierOrder) <==>
      exists k :: 0 <= k < |es| && es[k].code == code
  {
    TierLinesInOrder(es);
    var line := TierLine(es, code);
    OtherSlotsLackLine(es, code, StatusUnknown);
    OtherSlotsLackLine(es, code, StatusCritical);
    OtherSlotsLackLine(es, code, StatusWarn);
    OtherSlotsLackLine(es, code, StatusOk);
    DescriptionsEmptyIff(es, code);
    assert line in TierSlot(es, code) <==> Descriptions(es, code) != [];
  }

  /** A slot holds no line of another tier. */
  lemma OtherSlotsLackLine(es: seq<Entry>, code: Code, other: Code)
    ensures other != code ==> TierLine(es, code) !in TierSlot(es, other)
  {
    if other != code {
      TierLinesDiffer(es, other, code);
    }
  }

  /** Lines of different tiers differ: the four labels differ in their
      first character. */
  lemma TierLinesDiffer(es: seq<Entry>, a: Code, b: Code)
    requires a != b
    ensures TierLine(es, a) != TierLine(es, b)
  {
    assert TierLine(es, a)[0] == TierName(a)[0];
    assert TierLine(es, b)[0] == TierName(b)[0];
  }

  /** The report is never empty: the padded entries always yield a line. */
  lemma ReportHasALine(url: string, items: seq<Entry>)
    requires forall k :: 0 <= k < |items| ==> IsCode(items[k].code)
    ensures TierLines(Padded(url, items), TierOrder) != []
  {
    var es := Padded(url, items);
    TierLinesInOrder(es);
    assert IsCode(es[0].code);
    var c: Code := es[0].code;
    DescriptionsEmptyIff(es, c);
    assert Descriptions(es, c) != [];
    assert TierSlot(es, c) != [];
  }

  /** With entries that the probe can produce (never UNKNOWN), the overall
      code is UNKNOWN exactly when the probe found nothing, and it is always
      a monitoring-plugin code. */
  lemma UnknownIffNothingFound(url: string, items: seq<Entry>)
    requires forall k :: 0 <= k < |items| ==> StatusOk <= items[k].code <= StatusCritical
    ensures IsCode(MaxCode(Padded(url, items)))
    ensures MaxCode(Padded(url, items)) == StatusUnknown <==> items == []
  {
  }

  /** The four buckets of the entries OK "A", CRITICAL "B", OK "C". */
  lemma MixedBuckets(es: seq<Entry>)
    requires es == [Entry(0, "A"), Entry(2, "B"), Entry(0, "C")]
    ensures Descriptions(es, StatusUnknown) == [] && Descriptions(es, StatusWarn) == []
    ensures Descriptions(es, StatusCritical) == ["B"]
    ensures Descriptions(es, StatusOk) == ["A", "C"]
  {
    var ab, a := [Entry(0, "A"), Entry(2, "B")], [Entry(0, "A")];
    assert es[..2] == ab;
    assert ab[..1] == a;
    assert a[..0] == [];
    assert Descriptions(a, StatusOk) == ["A"];
    assert Descriptions(ab, StatusOk) == ["A"];
    assert Descriptions(ab, StatusCritical) == ["B"];
  }

  /** Entries OK "A", CRITICAL "B", OK "C" give exit code 2 and the report
      "CRITICAL: B" then "OK: A, C". */
  lemma MixedExample()
    ensures MaxCode([Entry(0, "A"), Entry(2, "B"), Entry(0, "C")]) == StatusCritical
    ensures ReportText([Entry(0, "A"), Entry(2, "B"), Entry(0, "C")]) == "CRITICAL: B\nOK: A, C"
  {
    var es := [Entry(0, "A"), Entry(2, "B"), Entry(0, "C")];
    MixedBuckets(es);
    assert TierSlot(es, StatusCritical) == ["CRITICAL: B"] by {
      LabelledLine(es, StatusCritical);
      assert Join(", ", ["B"]) == "B";
      assert "CRITICAL: " + "B" == "CRITICAL: B";
    }
    assert TierSlot(es, StatusOk) == ["OK: A, C"] by {
      LabelledLine(es, StatusOk);
      assert Join(", ", ["A", "C"]) == "A, C";
      assert "OK: " + "A, C" == "OK: A, C";
    }
    assert TierLines(es, TierOrder) == ["CRITICAL: B", "OK: A, C"] by {
      TierLinesInOrder(es);
    }
    assert Join("\n", ["CRITICAL: B", "OK: A, C"]) == "CRITICAL: B\nOK: A, C";
  }

  /** The buckets of the lone placeholder entry. */
  lemma PlaceholderBuckets(es: seq<Entry>, message: string)
    requires es == [Entry(StatusUnknown, message)]
    ensures Descriptions(es, StatusUnknown) == [message]
    ensures Descriptions(es, StatusCritical) == [] && Descriptions(es, StatusWarn) == []
    ensures Descriptions(es, StatusOk) == []
  {
    assert es[..0] == [];
  }

  /** When the probe finds nothing, the exit code is UNKNOWN and the report
      is the single line `UNKNOWN: Unable to parse "<url>".`. */
  lemma NothingFoundReport(url: string)
    ensures MaxCode(Padded(url, [])) == StatusUnknown
    ensures ReportText(Padded(url, [])) == "UNKNOWN: " + ParseFailedMessage(url)
  {
    var es := Padded(url, []);
    var message := ParseFailedMessage(url);
    var line := "UNKNOWN: " + message;
    assert TierLines(es, TierOrder) == [line] by {
      PlaceholderBuckets(es, message);
      LabelledLine(es, StatusUnknown);
      assert Join(", ", [message]) == message;
      TierLinesInOrder(es);
    }
    assert Join("\n", [line]) == line;
  }
}
