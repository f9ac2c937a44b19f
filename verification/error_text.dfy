/**
  The text shown under the form when `lastError` is set: the error's
  localized description, or, for a LocalizedError, its description, failure
  reason and recovery suggestion, the present ones joined with ". ".
 */
module ErrorText {
  import opened Wrappers

  /** The three optional strings of a LocalizedError. */
  datatype LocalizedParts = LocalizedParts(
    errorDescription: Option<string>,
    failureReason: Option<string>,
    recoverySuggestion: Option<string>)

  /**
    An error as the screen sees it: its `localizedDescription`, and its
    LocalizedError strings when the error conforms to LocalizedError.
   */
  datatype Error = Error(localizedDescription: string, localized: Option<LocalizedParts>)

  const Separator: string := ". "

  /** The number of present values. */
  function PresentCount(parts: seq<Option<string>>): (n: nat)
    ensures n <= |parts|
  {
    if parts == [] then 0 else (if parts[0].Some? then 1 else 0) + PresentCount(parts[1..])
  }

  /**
    The present values, in order (Swift's `compactMap { $0 }`): one item per
    present value.
   */
  function CompactMap(parts: seq<Option<string>>): (r: seq<string>)
    ensures |r| == PresentCount(parts)
  {
    if parts == [] then []
    else (if parts[0].Some? then [parts[0].value] else []) + CompactMap(parts[1..])
  }

  /** The items with the separator between neighbours (Swift's `joined(separator:)`). */
  function Join(items: seq<string>, separator: string): string
  {
    if |items| == 0 then ""
    else if |items| == 1 then items[0]
    else items[0] + separator + Join(items[1..], separator)
  }

  /** The sum of the lengths of the items. */
  function TotalLength(items: seq<string>): nat
  {
    if items == [] then 0 else |items[0]| + TotalLength(items[1..])
  }

  /** Compacting a concatenation compacts each half. */
  lemma {:induction false} CompactMapAppend(a: seq<Option<string>>, b: seq<Option<string>>)
    ensures CompactMap(a + b) == CompactMap(a) + CompactMap(b)
  {
    if a == [] {
      assert a + b == b;
    } else {
      assert (a + b)[0] == a[0];
      assert (a + b)[1..] == a[1..] + b;
      CompactMapAppend(a[1..], b);
    }
  }

  /** CompactMap keeps every present value and nothing else. */
  lemma {:induction false} CompactMapKeepsPresent(parts: seq<Option<string>>)
    ensures forall i :: 0 <= i < |parts| && parts[i].Some? ==> parts[i].value in CompactMap(parts)
    ensures forall s :: s in CompactMap(parts) ==> Some(s) in parts
  {
    if parts != [] {
      CompactMapKeepsPresent(parts[1..]);
      assert parts == [parts[0]] + parts[1..];
    }
  }

  /**
    CompactMap keeps the present values in order: the value of the i-th part
    comes right after the values of the parts before it.
   */
  lemma CompactMapKeepsOrder(parts: seq<Option<string>>, i: nat)
    requires i < |parts| && parts[i].Some?
    ensures PresentCount(parts[..i]) < |CompactMap(parts)|
    ensures CompactMap(parts)[PresentCount(parts[..i])] == parts[i].value
  {
    assert parts == parts[..i] + ([parts[i]] + parts[i + 1..]);
    CompactMapAppend(parts[..i], [parts[i]] + parts[i + 1..]);
    CompactMapAppend([parts[i]], parts[i + 1..]);
    assert CompactMap([parts[i]]) == [parts[i].value] by {
      assert [parts[i]][1..] == [];
    }
  }

  /** The joined text is the items' characters plus one separator per gap. */
  lemma {:induction false} JoinLength(items: seq<string>, separator: string)
    ensures |Join(items, separator)| == TotalLength(items) + if items == [] then 0 else |separator| * (|items| - 1)
  {
    if |items| > 1 {
      JoinLength(items[1..], separator);
    }
  }

  /** Joining two non-empty lists puts one separator between their joins. */
  lemma {:induction false} JoinAppend(a: seq<string>, b: seq<string>, separator: string)
    requires |a| > 0 && |b| > 0
    ensures Join(a + b, separator) == Join(a, separator) + separator + Join(b, separator)
  {
    assert (a + b)[0] == a[0];
    if |a| == 1 {
      assert (a + b)[1..] == b;
    } else {
      assert (a + b)[1..] == a[1..] + b;
      JoinAppend(a[1..], b, separator);
    }
  }

  /** `s` ends with `suffix`. */
  predicate EndsWith(s: string, suffix: string)
  {
    |suffix| <= |s| && s[|s| - |suffix|..] == suffix
  }

  /** The joined text starts with the first item and ends with the last. */
  lemma {:induction false} JoinEnds(items: seq<string>, separator: string)
    ensures |items| > 0 ==> items[0] <= Join(items, separator)
    ensures |items| > 0 ==> EndsWith(Join(items, separator), items[|items| - 1])
  {
    if |items| > 1 {
      JoinEnds(items[1..], separator);
      var rest := Join(items[1..], separator);
      var last := items[|items| - 1];
      assert items[1..][|items[1..]| - 1] == last;
      var r := items[0] + separator + rest;
      assert r[|r| - |last|..] == rest[|rest| - |last|..];
    }
  }

  /** With a non-empty separator the join is empty only for no items or one empty item. */
  lemma JoinIsEmptyIff(items: seq<string>, separator: string)
    requires separator != ""
    ensures Join(items, separator) == "" <==> items == [] || items == [""]
  {
    JoinLength(items, separator);
    if |items| == 1 {
      assert items == [items[0]];
    }
  }

  /** The LocalizedError text: the present parts joined with ". ". */
  function LocalizedText(p: LocalizedParts): string
  {
    Join(CompactMap([p.errorDescription, p.failureReason, p.recoverySuggestion]), Separator)
  }

  /** The text leads with the description and ends with the suggestion when they are present. */
  lemma LocalizedTextEnds(p: LocalizedParts)
    ensures p.errorDescription.Some? ==> p.errorDescription.value <= LocalizedText(p)
    ensures p.recoverySuggestion.Some? ==> EndsWith(LocalizedText(p), p.recoverySuggestion.value)
  {
    var parts := [p.errorDescription, p.failureReason, p.recoverySuggestion];
    var items := CompactMap(parts);
    assert parts == parts[..2] + parts[2..];
    CompactMapAppend(parts[..2], parts[2..]);
    assert parts[2..][1..] == [];
    JoinEnds(items, Separator);
  }

  /**
    The label text for an optional error; nil exactly when there is no
    error, which is what hides the label.
   */
  function Text(e: Option<Error>): (r: Option<string>)
    ensures r.None? <==> e.None?
    ensures e.Some? && e.value.localized.Some? && LocalizedText(e.value.localized.value) != ""
      ==> r == Some(LocalizedText(e.value.localized.value))
    ensures e.Some? && (e.value.localized.None? || LocalizedText(e.value.localized.value) == "")
      ==> r == Some(e.value.localizedDescription)
  {
    match e
    case None => None
    case Some(err) =>
      match err.localized
      case Some(p) => if LocalizedText(p) != "" then Some(LocalizedText(p)) else Some(err.localizedDescription)
      case None => Some(err.localizedDescription)
  }

  /** With all three parts present the text reads "description. reason. suggestion". */
  lemma LocalizedTextAllParts(d: string, f: string, s: string)
    ensures LocalizedText(LocalizedParts(Some(d), Some(f), Some(s))) == d + ". " + f + ". " + s
  {
    var parts := [Some(d), Some(f), Some(s)];
    assert CompactMap([Some(s)]) == [s] by {
      assert [Some(s)][1..] == [];
    }
    assert CompactMap([Some(f), Some(s)]) == [f, s] by {
      assert [Some(f), Some(s)][1..] == [Some(s)];
    }
    assert CompactMap(parts) == [d, f, s] by {
      assert parts[1..] == [Some(f), Some(s)];
    }
    assert Join([s], Separator) == s;
    assert Join([f, s], Separator) == f + Separator + s by {
      assert [f, s][1..] == [s];
    }
    assert Join([d, f, s], Separator) == d + Separator + (f + Separator + s) by {
      assert [d, f, s][1..] == [f, s];
    }
  }

  /** Compacting three parts compacts each on its own. */
  lemma CompactMapOfThree(x: Option<string>, y: Option<string>, z: Option<string>)
    ensures CompactMap([x, y, z]) ==
      (if x.Some? then [x.value] else []) + (if y.Some? then [y.value] else []) + (if z.Some? then [z.value] else [])
  {
    assert [x, y, z] == [x] + ([y] + [z]);
    CompactMapAppend([x], [y] + [z]);
    CompactMapAppend([y], [z]);
    assert [x][1..] == [] && [y][1..] == [] && [z][1..] == [];
  }

  /** With one part present the text is that part alone. */
  lemma LocalizedTextOnePart(a: string)
    ensures LocalizedText(LocalizedParts(Some(a), None, None)) == a
    ensures LocalizedText(LocalizedParts(None, Some(a), None)) == a
    ensures LocalizedText(LocalizedParts(None, None, Some(a))) == a
  {
    CompactMapOfThree(Some(a), None, None);
    CompactMapOfThree(None, Some(a), None);
    CompactMapOfThree(None, None, Some(a));
  }

  /** With two parts present the text is the first, ". ", then the second, whichever two they are. */
  lemma LocalizedTextTwoParts(a: string, b: string)
    ensures LocalizedText(LocalizedParts(Some(a), Some(b), None)) == a + ". " + b
    ensures LocalizedText(LocalizedParts(Some(a), None, Some(b))) == a + ". " + b
    ensures LocalizedText(LocalizedParts(None, Some(a), Some(b))) == a + ". " + b
  {
    CompactMapOfThree(Some(a), Some(b), None);
    CompactMapOfThree(Some(a), None, Some(b));
    CompactMapOfThree(None, Some(a), Some(b));
    assert [a] + [b] + [] == [a] + [] + [b] == [] + [a] + [b] == [a] + [b];
    JoinAppend([a], [b], Separator);
  }

  /**
    The localized text is empty, so the plain description is shown instead,
    exactly when no part is present or the only present part is empty.
   */
  lemma LocalizedTextIsEmptyIff(p: LocalizedParts)
    ensures var parts := [p.errorDescription, p.failureReason, p.recoverySuggestion];
      LocalizedText(p) == "" <==> PresentCount(parts) == 0 || (PresentCount(parts) == 1 && Some("") in parts)
  {
    var parts := [p.errorDescription, p.failureReason, p.recoverySuggestion];
    var items := CompactMap(parts);
    JoinIsEmptyIff(items, Separator);
    CompactMapKeepsPresent(parts);
    if PresentCount(parts) == 1 && Some("") in parts {
      var i :| 0 <= i < |parts| && parts[i] == Some("");
      assert "" in items;
      assert items == [items[0]];
    }
  }
}
