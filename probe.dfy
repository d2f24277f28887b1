/** Extraction and classification of the status page's component entries.
    The parsed page is given as the sequence of its `li` elements in
    document order; fetching and HTML parsing are not part of this module. */
module Probe {
  import opened Wrappers
  import opened Text
  import opened Status

  /** The `small` badge of an entry: its class attribute (absent or a list)
      and its visible text. */
  datatype Badge = Badge(classes: Option<seq<string>>, text: string)

  /** One `li` element: its class attribute, its first `small` descendant,
      and its visible text once that badge has been detached. */
  datatype ListItem = ListItem(classes: Option<seq<string>>, badge: Option<Badge>, text: string)

  /** A classified component: exit code and description. */
  datatype Entry = Entry(code: int, description: string)

  /** The ways the extraction loop breaks off on a candidate: no `small`
      element, a `small` element without a class attribute, or a badge with
      no known status class. */
  datatype FaultKind = MissingBadge | BadgeWithoutClass | NoStatusClass

  /** A fault together with the position of the `li` it happened on. */
  datatype Fault = Fault(index: nat, kind: FaultKind)

  /** What the loop does with one `li`. */
  datatype ItemOutcome = Skip | Keep(entry: Entry) | Crash(kind: FaultKind)

  function Elements(xs: seq<string>): set<string> {
    set x | x in xs
  }

  /** An item has a non-empty class list whose intersection with the two
      marker classes has exactly two elements. */
  predicate IsCandidate(item: ListItem) {
    && item.classes.Some?
    && item.classes.value != []
    && |Elements(ClassComponents) * Elements(item.classes.value)| == 2
  }

  /** Candidates are exactly the items whose class list holds both markers,
      whatever other classes it holds. */
  lemma CandidateIff(item: ListItem)
    ensures IsCandidate(item) <==>
      item.classes.Some? && "list-group-item" in item.classes.value && "sub-component" in item.classes.value
  {
    if item.classes.Some? {
      var cs := item.classes.value;
      var s := Elements(cs);
      var a, b := "list-group-item", "sub-component";
      var both := Elements(ClassComponents) * s;
      assert Elements(ClassComponents) == {a, b};
      if a in cs && b in cs {
        assert both == {a, b};
      } else if a in cs {
        assert both == {a};
      } else if b in cs {
        assert both == {b};
      } else {
        assert both == {};
      }
    }
  }

  /** The status class chosen for a badge: the first of its classes, in
      declaration order, that is one of the `known` status classes. */
  function ResolveTag(known: seq<string>, classes: seq<string>): (r: Option<string>)
    ensures r.None? <==> forall k :: 0 <= k < |classes| ==> classes[k] !in known
    ensures r.Some? ==> r.value in known && r.value in classes
    ensures r.Some? ==>
      exists k :: (0 <= k < |classes| && classes[k] == r.value &&
                   forall j :: 0 <= j < k ==> classes[j] !in known)
  {
    if classes == [] then None
    else if classes[0] in known then Some(classes[0])
    else
      var r := ResolveTag(known, classes[1..]);
      if r.Some? then
        var k :| 0 <= k < |classes[1..]| && classes[1..][k] == r.value &&
          (forall j :: 0 <= j < k ==> classes[1..][j] !in known);
        assert classes[k + 1] == r.value;
        r
      else r
  }

  /** The description of an entry: the item's stripped text, followed by
      `": "` and the badge's stripped text when the code is not OK. */
  function Describe(code: int, text: string, badgeText: string): (r: string)
    ensures |Strip(text)| <= |r| && r[..|Strip(text)|] == Strip(text)
    ensures code == StatusOk <==> r == Strip(text)
    ensures code != StatusOk ==> r[|Strip(text)|..] == ": " + Strip(badgeText)
  {
    if code != StatusOk then Strip(text) + ": " + Strip(badgeText) else Strip(text)
  }

  /** A candidate carrying a badge with a class list that names a known status. */
  predicate WellFormed(item: ListItem) {
    && item.badge.Some?
    && item.badge.value.classes.Some?
    && ResolveTag(StatusList, item.badge.value.classes.value).Some?
  }

  /** One pass of the extraction loop over a single `li`. */
  function Classify(item: ListItem): ItemOutcome {
    if !IsCandidate(item) then Skip
    else if item.badge.None? then Crash(MissingBadge)
    else
      var badge := item.badge.value;
      if badge.classes.None? then Crash(BadgeWithoutClass)
      else match ResolveTag(StatusList, badge.classes.value)
        case None => Crash(NoStatusClass)
        case Some(tag) =>
          var code := TagCode(tag);
          Keep(Entry(code, Describe(code, item.text, badge.text)))
  }

  /** An item is skipped exactly when it is not a candidate, kept exactly
      when it is a well-formed candidate, and a kept entry has an OK, WARNING
      or CRITICAL code. */
  lemma ClassifySpec(item: ListItem)
    ensures Classify(item).Skip? <==> !IsCandidate(item)
    ensures Classify(item).Keep? <==> IsCandidate(item) && WellFormed(item)
    ensures Classify(item).Keep? ==> StatusOk <= Classify(item).entry.code <= StatusCritical
  {
  }

  /** The entries the loop appends, in document order. */
  function Accepted(items: seq<ListItem>): (r: seq<Entry>)
    ensures |r| <= |items|
    ensures forall k :: 0 <= k < |r| ==> StatusOk <= r[k].code <= StatusCritical
  {
    if items == [] then []
    else
      var last := Classify(items[|items| - 1]);
      Accepted(items[..|items| - 1]) + (if last.Keep? then [last.entry] else [])
  }

  /** The items that pass the class filter, in document order. */
  function Candidates(items: seq<ListItem>): (r: seq<ListItem>)
    ensures |r| <= |items|
    ensures forall k :: 0 <= k < |r| ==> IsCandidate(r[k]) && r[k] in items
  {
    if items == [] then []
    else
      var last := items[|items| - 1];
      Candidates(items[..|items| - 1]) + (if IsCandidate(last) then [last] else [])
  }

  /** Every candidate of the page passes the filter, so the filter keeps
      nothing exactly when the page has no candidate. */
  lemma {:induction false} CandidatesComplete(items: seq<ListItem>)
    ensures forall i :: 0 <= i < |items| && IsCandidate(items[i]) ==> items[i] in Candidates(items)
    ensures Candidates(items) == [] <==> forall i :: 0 <= i < |items| ==> !IsCandidate(items[i])
  {
    if items != [] {
      var init := items[..|items| - 1];
      var last := items[|items| - 1];
      var c := Candidates(init);
      var r := Candidates(items);
      CandidatesComplete(init);
      assert r == c + (if IsCandidate(last) then [last] else []);
      forall i | 0 <= i < |items| && IsCandidate(items[i]) ensures items[i] in r {
        if i < |init| {
          assert items[i] == init[i];
        }
      }
      if r != [] {
        if IsCandidate(last) {
          assert items[|items| - 1] == last;
        } else {
          var i :| 0 <= i < |init| && IsCandidate(init[i]);
          assert items[i] == init[i];
        }
      }
    }
  }

  /** The first item, in document order, on which the loop breaks off. */
  function FirstCrash(items: seq<ListItem>): (r: Option<Fault>)
    ensures r.None? <==> forall i :: 0 <= i < |items| ==> !Classify(items[i]).Crash?
    ensures r.Some? ==> r.value.index < |items| && Classify(items[r.value.index]) == Crash(r.value.kind)
    ensures r.Some? ==> forall j :: 0 <= j < r.value.index ==> !Classify(items[j]).Crash?
  {
    if items == [] then None
    else
      var init := items[..|items| - 1];
      var prior := FirstCrash(init);
      if prior.Some? then
        assert init[prior.value.index] == items[prior.value.index];
        assert forall j :: 0 <= j < prior.value.index ==> init[j] == items[j];
        prior
      else
        assert forall j :: 0 <= j < |init| ==> init[j] == items[j];
        match Classify(items[|items| - 1])
        case Crash(kind) => Some(Fault(|items| - 1, kind))
        case _ => None
  }

  /** What the extraction loop produces for the page's `li` elements: the
      first fault, or else every accepted entry. */
  function Extract(items: seq<ListItem>): Result<seq<Entry>, Fault> {
    match FirstCrash(items)
    case Some(f) => Failure(f)
    case None => Success(Accepted(items))
  }

  /** One step of the extraction loop: past a prefix without faults, the
      next item either extends the accepted entries or ends the whole
      extraction with its fault. */
  lemma ExtractStep(items: seq<ListItem>, i: nat)
    requires i < |items|
    requires FirstCrash(items[..i]).None?
    ensures !Classify(items[i]).Crash? ==>
      && FirstCrash(items[..i + 1]).None?
      && Accepted(items[..i + 1]) == Accepted(items[..i])
           + (if Classify(items[i]).Keep? then [Classify(items[i]).entry] else [])
    ensures Classify(items[i]).Crash? ==>
      Extract(items) == Failure(Fault(i, Classify(items[i]).kind))
  {
    assert items[..i + 1][..i] == items[..i];
    assert items[..i + 1][i] == items[i];
    assert forall j :: 0 <= j < i ==> items[..i][j] == items[j];
    if Classify(items[i]).Crash? {
      var f := FirstCrash(items);
      assert f.Some?;
      assert !(f.value.index < i);
      assert !(i < f.value.index);
    }
  }

  /** Extraction succeeds iff every candidate is well formed. */
  lemma ExtractSucceedsIff(items: seq<ListItem>)
    ensures Extract(items).Success? <==>
      forall i :: 0 <= i < |items| && IsCandidate(items[i]) ==> WellFormed(items[i])
  {
    if Extract(items).Success? {
      forall i | 0 <= i < |items| && IsCandidate(items[i]) ensures WellFormed(items[i]) {
        assert !Classify(items[i]).Crash?;
      }
    } else {
      var f := FirstCrash(items).value;
      assert Classify(items[f.index]).Crash?;
    }
  }

  /** Entries of a concatenation are the entries of the parts, in order. */
  lemma {:induction false} AcceptedConcat(a: seq<ListItem>, b: seq<ListItem>)
    ensures Accepted(a + b) == Accepted(a) + Accepted(b)
  {
    if b == [] {
      assert a + b == a;
    } else {
      var b' := b[..|b| - 1];
      assert (a + b)[..|a + b| - 1] == a + b';
      assert (a + b)[|a + b| - 1] == b[|b| - 1];
      AcceptedConcat(a, b');
    }
  }

  /** An item that is not a candidate contributes nothing. */
  lemma NonCandidateIgnored(a: seq<ListItem>, x: ListItem, b: seq<ListItem>)
    requires !IsCandidate(x)
    ensures Accepted(a + [x] + b) == Accepted(a + b)
  {
    AcceptedConcat(a + [x], b);
    AcceptedConcat(a, [x]);
    AcceptedConcat(a, b);
    assert [x][..0] == [];
  }

  /** When nothing breaks off, there is exactly one entry per candidate, in
      document order, and it is that candidate's classification. */
  lemma {:induction false} AcceptedMatchesCandidates(items: seq<ListItem>)
    requires FirstCrash(items).None?
    ensures |Accepted(items)| == |Candidates(items)|
    ensures forall k :: 0 <= k < |Candidates(items)| ==>
      Classify(Candidates(items)[k]) == Keep(Accepted(items)[k])
  {
    if items != [] {
      var init := items[..|items| - 1];
      var last := items[|items| - 1];
      assert forall j :: 0 <= j < |init| ==> init[j] == items[j];
      assert !Classify(last).Crash?;
      AcceptedMatchesCandidates(init);
    }
  }

  /** A candidate with its own text `"API"`, badge class `status-4` and badge
      text `"Major Outage"` is a CRITICAL entry `"API: Major Outage"`. */
  lemma CriticalExample()
    ensures Classify(ListItem(Some(["list-group-item", "sub-component"]),
                              Some(Badge(Some(["status-4"]), "Major Outage")), "API"))
      == Keep(Entry(StatusCritical, "API: Major Outage"))
  {
    var item := ListItem(Some(["list-group-item", "sub-component"]),
                         Some(Badge(Some(["status-4"]), "Major Outage")), "API");
    CandidateIff(item);
    CriticalTag();
    CriticalDescription();
  }

  /** The badge class `status-4` resolves to itself and stands for CRITICAL. */
  lemma CriticalTag()
    ensures ResolveTag(StatusList, ["status-4"]) == Some("status-4")
    ensures TagCode("status-4") == StatusCritical
  {
    assert StatusList[6] == "status-4";
  }

  /** The description of the CRITICAL `API` entry. */
  lemma CriticalDescription()
    ensures Describe(StatusCritical, "API", "Major Outage") == "API: Major Outage"
  {
    StripUnchanged("API");
    StripUnchanged("Major Outage");
  }
}
