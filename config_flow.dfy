/** The configuration flow: validation of the submitted ICAO codes, the user step
    that turns one submission into one entry per airport, the import step that
    creates the extra entries, and the options step that rewrites an entry's feeds. */
module ConfigFlow {
  import opened Json
  import opened Text
  import opened Const
  import Airports

  /** What a validation or a step that can fail ends in: a value, a `vol.Invalid`
      with its message, or any other exception. */
  datatype Outcome<T> = Ok(value: T) | Invalid(message: string) | Crash

  const MSG_BAD_TYPE := "ICAO codes must be a list or string."
  const MSG_NONE_SELECTED := "At least one airport must be selected."
  const MSG_INVALID_PREFIX := "Invalid ICAO code(s): "
  const MSG_UNKNOWN := "An unknown error occurred."

  /** `[code.strip().upper() for code in raw if code.strip()]`. */
  function CleanCodes(raw: seq<string>): (codes: seq<string>)
    ensures |codes| <= |raw|
    ensures forall k :: 0 <= k < |codes| ==> codes[k] != ""
  {
    if raw == [] then []
    else
      var rest := CleanCodes(raw[1..]);
      if Strip(raw[0]) != "" then [Upper(Strip(raw[0]))] + rest else rest
  }

  /** Normalisation works input by input: the codes of a concatenation are the
      codes of its first part followed by those of its second, so order and
      repetition of the inputs are kept. */
  lemma {:induction false} CleanCodesAppend(a: seq<string>, b: seq<string>)
    ensures CleanCodes(a + b) == CleanCodes(a) + CleanCodes(b)
  {
    if a == [] {
      assert a + b == b;
    } else {
      CleanCodesAppend(a[1..], b);
      assert (a + b)[1..] == a[1..] + b;
    }
  }

  /** The normalised codes are exactly the stripped, upper-cased forms of the
      non-blank inputs. */
  lemma {:induction false} CleanCodesMembers(raw: seq<string>, c: string)
    ensures c in CleanCodes(raw) <==> exists s :: s in raw && Strip(s) != "" && c == Upper(Strip(s))
  {
    if raw != [] {
      var head, rest := raw[0], raw[1..];
      CleanCodesMembers(rest, c);
      var taken := Strip(head) != "";
      assert CleanCodes(raw) == (if taken then [Upper(Strip(head))] else []) + CleanCodes(rest);
      if c in CleanCodes(raw) {
        if taken && c == Upper(Strip(head)) {
          assert head in raw;
        } else {
          var s :| s in rest && Strip(s) != "" && c == Upper(Strip(s));
          assert s in raw;
        }
      } else {
        forall s | s in raw && Strip(s) != ""
          ensures c != Upper(Strip(s))
        {
          if s != head {
            var k :| 0 <= k < |raw| && raw[k] == s;
            assert rest[k - 1] == s;
          }
        }
      }
    }
  }

  predicate AllStrings(items: seq<Value>) {
    forall k :: 0 <= k < |items| ==> items[k].Str?
  }

  function Texts(items: seq<Value>): (texts: seq<string>)
    requires AllStrings(items)
    ensures |texts| == |items| && forall k :: 0 <= k < |items| ==> texts[k] == items[k].s
  {
    seq(|items|, k requires 0 <= k < |items| => items[k].s)
  }

  /** The normalisation of `validate_icao_codes`: a list has each element
      stripped and upper-cased, blank ones dropped (an element that is not a
      string has no `strip` and raises); a string is split on commas first; any
      other value is invalid. */
  function Normalize(value: Value): (r: Outcome<seq<string>>)
    ensures r.Invalid? <==> !value.List? && !value.Str?
    ensures r.Invalid? ==> r.message == MSG_BAD_TYPE
    ensures r.Crash? <==> value.List? && !AllStrings(value.items)
    ensures value.Str? ==> r == Ok(CleanCodes(Split(value.s, ',')))
    ensures value.List? && AllStrings(value.items) ==> r == Ok(CleanCodes(Texts(value.items)))
  {
    match value
    case List(items) => if AllStrings(items) then Ok(CleanCodes(Texts(items))) else Crash
    case Str(s) => Ok(CleanCodes(Split(s, ',')))
    case _ => Invalid(MSG_BAD_TYPE)
  }

  /** A code the flow accepts: four letters and known to the airport table. */
  predicate Acceptable(table: Airports.Table, code: string) {
    |code| == 4 && IsAlpha(code) && Airports.ValidateIcaoCode(table, code)
  }

  /** The one reason a code is rejected, the first that applies: its length,
      then a non-letter, then an unknown airport. */
  function Reason(table: Airports.Table, code: string): (reason: Option<string>)
    ensures reason.None? <==> Acceptable(table, code)
    ensures reason.Some? ==> code + " (" <= reason.value
    ensures |code| != 4 ==> reason == Some(code + " (must be exactly 4 characters)")
    ensures |code| == 4 && !IsAlpha(code) ==> reason == Some(code + " (must contain only letters)")
    ensures |code| == 4 && IsAlpha(code) && !Airports.ValidateIcaoCode(table, code) ==>
              reason == Some(code + " (airport not found in database)")
  {
    if |code| != 4 then Some(code + " (must be exactly 4 characters)")
    else if !IsAlpha(code) then Some(code + " (must contain only letters)")
    else if !Airports.ValidateIcaoCode(table, code) then Some(code + " (airport not found in database)")
    else None
  }

  /** The reasons of all codes, in the codes' order. */
  function Reasons(table: Airports.Table, codes: seq<string>): seq<string> {
    if codes == [] then []
    else
      var last := Reason(table, codes[|codes| - 1]);
      Reasons(table, codes[..|codes| - 1]) + (if last.Some? then [last.value] else [])
  }

  /** No reason is reported exactly when every code is acceptable, and each
      reported reason belongs to a code of the list. */
  lemma {:induction false} ReasonsCoverCodes(table: Airports.Table, codes: seq<string>)
    ensures Reasons(table, codes) == [] <==> forall c :: c in codes ==> Acceptable(table, c)
    ensures forall r :: r in Reasons(table, codes) ==> exists c :: c in codes && Reason(table, c) == Some(r)
    ensures forall c :: c in codes && !Acceptable(table, c) ==> Reason(table, c).value in Reasons(table, codes)
  {
    if codes != [] {
      var init := codes[..|codes| - 1];
      ReasonsCoverCodes(table, init);
      assert codes == init + [codes[|codes| - 1]];
      assert forall c :: c in codes <==> c in init || c == codes[|codes| - 1];
    }
  }

  /** The error-collection loop of `validate_icao_codes`: every code is checked,
      even after a first rejection. */
  method CollectReasons(table: Airports.Table, codes: seq<string>) returns (invalid: seq<string>)
    ensures invalid == Reasons(table, codes)
  {
    invalid := [];
    var i := 0;
    while i < |codes|
      invariant 0 <= i <= |codes|
      invariant invalid == Reasons(table, codes[..i])
    {
      assert codes[..i + 1][..i] == codes[..i];
      var reason := Reason(table, codes[i]);
      if reason.Some? {
        invalid := invalid + [reason.value];
      }
      i := i + 1;
    }
    assert codes[..i] == codes;
  }

  /** What `validate_icao_codes` returns or raises. */
  function Validated(table: Airports.Table, value: Value): Outcome<string> {
    match Normalize(value)
    case Crash => Crash
    case Invalid(m) => Invalid(m)
    case Ok(codes) =>
      if codes == [] then Invalid(MSG_NONE_SELECTED)
      else if Reasons(table, codes) != [] then Invalid(MSG_INVALID_PREFIX + Join(Reasons(table, codes), ", "))
      else Ok(Join(SortUnique(codes), ","))
  }

  /** `validate_icao_codes`. */
  method ValidateIcaoCodes(table: Airports.Table, value: Value) returns (r: Outcome<string>)
    ensures r == Validated(table, value)
    ensures r.Invalid? ==> r.message == MSG_BAD_TYPE || r.message == MSG_NONE_SELECTED || MSG_INVALID_PREFIX <= r.message
  {
    var normalized := Normalize(value);
    if normalized.Crash? {
      return Crash;
    }
    if normalized.Invalid? {
      return Invalid(normalized.message);
    }
    var codes := normalized.value;
    if codes == [] {
      return Invalid(MSG_NONE_SELECTED);
    }
    var invalid := CollectReasons(table, codes);
    if invalid != [] {
      return Invalid(MSG_INVALID_PREFIX + Join(invalid, ", "));
    }
    return Ok(Join(SortUnique(codes), ","));
  }

  /** A code as validation leaves it: four upper-case letters, known to the table. */
  predicate CleanCode(table: Airports.Table, c: string) {
    |c| == 4 && (forall k :: 0 <= k < 4 ==> IsUpperLetter(c[k])) && c in table
  }

  lemma UpperOfUpper(c: string)
    requires forall k :: 0 <= k < |c| ==> IsUpperLetter(c[k])
    ensures Upper(c) == c
  {
  }

  /** An acceptable code that is already the upper-case form of something is
      four upper-case letters and a key of the table. */
  lemma AcceptedIsClean(table: Airports.Table, c: string, s: string)
    requires c == Upper(s) && Acceptable(table, c)
    ensures CleanCode(table, c)
  {
    forall k | 0 <= k < 4 ensures IsUpperLetter(c[k]) {
      assert IsLetter(c[k]);
      assert c[k] == UpperChar(s[k]);
    }
    UpperOfUpper(c);
  }

  /** The codes an accepted value yields: the sorted, duplicate-free list of its
      normalised codes, each four upper-case letters known to the table. */
  function AcceptedCodes(table: Airports.Table, value: Value): (codes: seq<string>)
    requires Validated(table, value).Ok?
    ensures StrictlySorted(codes) && |codes| >= 1
    ensures forall c :: c in codes <==> c in Normalize(value).value
    ensures forall c :: c in codes ==> CleanCode(table, c)
    ensures Validated(table, value).value == Join(codes, ",")
  {
    var norm := Normalize(value).value;
    ReasonsCoverCodes(table, norm);
    forall c | c in norm ensures CleanCode(table, c) {
      var raw := if value.Str? then Split(value.s, ',') else Texts(value.items);
      CleanCodesMembers(raw, c);
      var s :| s in raw && Strip(s) != "" && c == Upper(Strip(s));
      AcceptedIsClean(table, c, Strip(s));
    }
    assert norm[0] in SortUnique(norm);
    SortUnique(norm)
  }

  /** A clean code survives normalisation unchanged. */
  lemma CleanCodeIsNormal(table: Airports.Table, c: string)
    requires CleanCode(table, c)
    ensures Strip(c) == c && Upper(c) == c && c != ""
  {
    assert !IsSpace(c[0]) && !IsSpace(c[3]);
    UpperOfUpper(c);
  }

  lemma {:induction false} CleanCodesOfClean(table: Airports.Table, codes: seq<string>)
    requires forall c :: c in codes ==> CleanCode(table, c)
    ensures CleanCodes(codes) == codes
  {
    if codes != [] {
      CleanCodesCons(table, codes);
      CleanCodesOfClean(table, codes[1..]);
      assert [codes[0]] + codes[1..] == codes;
    }
  }

  /** One step of `CleanCodes` over a list whose head is clean. */
  lemma CleanCodesCons(table: Airports.Table, codes: seq<string>)
    requires codes != [] && CleanCode(table, codes[0])
    ensures CleanCodes(codes) == [codes[0]] + CleanCodes(codes[1..])
  {
    CleanCodeIsNormal(table, codes[0]);
  }

  /** A list of clean codes is read back from its comma join unchanged. */
  lemma NormalizeJoined(table: Airports.Table, codes: seq<string>)
    requires |codes| >= 1 && forall c :: c in codes ==> CleanCode(table, c)
    ensures Normalize(Str(Join(codes, ","))) == Ok(codes)
  {
    forall k | 0 <= k < |codes| ensures ',' !in codes[k] {
      assert codes[k] in codes;
    }
    SplitJoin(codes, ',');
    CleanCodesOfClean(table, codes);
  }

  /** Clean codes draw no rejection. */
  lemma CleanCodesPass(table: Airports.Table, codes: seq<string>)
    requires forall c :: c in codes ==> CleanCode(table, c)
    ensures Reasons(table, codes) == []
  {
    ReasonsCoverCodes(table, codes);
    forall c | c in codes ensures Acceptable(table, c) {
      UpperOfUpper(c);
    }
  }

  /** Validating the stored result again (as a string) accepts it and gives it
      back unchanged. */
  lemma ValidatedIdempotent(table: Airports.Table, value: Value)
    requires Validated(table, value).Ok?
    ensures Validated(table, Str(Validated(table, value).value)) == Validated(table, value)
  {
    var codes := AcceptedCodes(table, value);
    NormalizeJoined(table, codes);
    CleanCodesPass(table, codes);
    SortUniqueOfSorted(codes);
  }

  /** The data of the user form: the codes as submitted and the selected feeds. */
  datatype UserInput = UserInput(icaoCodes: Value, feeds: seq<string>)

  /** What a step hands back to the host. */
  datatype FlowResult =
    | Form(errors: map<string, string>)
      /** `async_create_entry` for a configuration entry, plus the import flows
          started on the way (their data). */
    | Entry(title: string, data: EntryData, imports: seq<EntryData>)
      /** `async_create_entry(title="", data={})` of the options flow. */
    | OptionsSaved
    | Aborted(reason: string)

  /** One import flow per code after the first, with the submitted feeds. */
  function ImportsFor(codes: seq<string>, feeds: seq<string>): (imports: seq<EntryData>)
    ensures |imports| == |codes|
    ensures forall k :: 0 <= k < |codes| ==> imports[k] == EntryData(codes[k], feeds)
  {
    seq(|codes|, k requires 0 <= k < |codes| => EntryData(codes[k], feeds))
  }

  /** The accepted value, split on commas again, gives the accepted codes. */
  lemma AcceptedSplit(table: Airports.Table, value: Value)
    requires Validated(table, value).Ok?
    ensures Split(Validated(table, value).value, ',') == AcceptedCodes(table, value)
  {
    var codes := AcceptedCodes(table, value);
    forall k | 0 <= k < |codes| ensures ',' !in codes[k] {
      assert codes[k] in codes;
    }
    SplitJoin(codes, ',');
  }

  /** The loop over `codes_list[1:]` of the user step: one import flow per code,
      in order. */
  method StartImports(rest: seq<string>, feeds: seq<string>) returns (imports: seq<EntryData>)
    ensures imports == ImportsFor(rest, feeds)
  {
    imports := [];
    var i := 0;
    while i < |rest|
      invariant 0 <= i <= |rest|
      invariant imports == ImportsFor(rest[..i], feeds)
    {
      imports := imports + [EntryData(rest[i], feeds)];
      i := i + 1;
    }
    assert rest[..i] == rest;
  }

  /** `async_step_user`. Without input the empty form is shown. An invalid value
      shows the form with its message, any other exception with a generic one.
      An accepted value creates the entry of its first code (titled with that
      airport's label) and starts one import flow for each other code, all with
      the submitted feeds. */
  method UserStep(table: Airports.Table, input: Option<UserInput>) returns (result: FlowResult)
    ensures input.None? ==> result == Form(map[])
    ensures input.Some? && Validated(table, input.value.icaoCodes).Invalid? ==>
      result == Form(map["base" := Validated(table, input.value.icaoCodes).message])
    ensures input.Some? && Validated(table, input.value.icaoCodes).Crash? ==> result == Form(map["base" := MSG_UNKNOWN])
    ensures input.Some? && Validated(table, input.value.icaoCodes).Ok? ==>
      var codes := AcceptedCodes(table, input.value.icaoCodes);
      && result == Entry(Airports.FormatAirportLabel(table, codes[0], None),
                         EntryData(codes[0], input.value.feeds),
                         ImportsFor(codes[1..], input.value.feeds))
  {
    if input.None? {
      return Form(map[]);
    }
    var validated := ValidateIcaoCodes(table, input.value.icaoCodes);
    if validated.Invalid? {
      return Form(map["base" := validated.message]);
    }
    if validated.Crash? {
      return Form(map["base" := MSG_UNKNOWN]);
    }
    AcceptedSplit(table, input.value.icaoCodes);
    var codesList := Split(validated.value, ',');
    var imports := StartImports(codesList[1..], input.value.feeds);
    var first := codesList[0];
    var title := Airports.FormatAirportLabel(table, first, None);
    return Entry(title, EntryData(first, input.value.feeds), imports);
  }

  /** The entries a successful user step yields (the created one first, then the
      imports) hold every accepted code exactly once, the smallest first, and
      all carry the submitted feeds. */
  lemma UserStepCoversCodes(table: Airports.Table, codes: seq<string>, feeds: seq<string>, c: string)
    requires StrictlySorted(codes) && |codes| >= 1
    ensures c in codes <==> c == codes[0] || exists d :: d in ImportsFor(codes[1..], feeds) && d.icaoCodes == c
    ensures forall d :: d in ImportsFor(codes[1..], feeds) ==> d.feeds == feeds && Less(codes[0], d.icaoCodes)
  {
    var imports := ImportsFor(codes[1..], feeds);
    if c in codes && c != codes[0] {
      var k :| 0 <= k < |codes| && codes[k] == c;
      assert imports[k - 1].icaoCodes == c;
    }
    forall d | d in imports ensures d.feeds == feeds && Less(codes[0], d.icaoCodes) {
      var k :| 0 <= k < |imports| && imports[k] == d;
      assert Less(codes[0], codes[k + 1]);
    }
  }

  /** `async_step_import`: the flow takes the code as its unique id and aborts
      when an entry already has that id; otherwise it creates the entry with the
      imported data, titled with the airport's label. */
  function ImportStep(table: Airports.Table, configuredIds: set<string>, data: EntryData): (result: FlowResult)
    ensures result.Aborted? <==> data.icaoCodes in configuredIds
    ensures result.Entry? ==> result.data == data && result.imports == [] && data.icaoCodes <= result.title
  {
    if data.icaoCodes in configuredIds then Aborted("already_configured")
    else Entry(Airports.FormatAirportLabel(table, data.icaoCodes, None), data, [])
  }

  /** `OptionsFlowHandler.async_step_init`: a submission rewrites the entry's
      data with the same codes and the new feeds; without one the form is shown
      and nothing changes. */
  method OptionsStep(entry: ConfigEntry, feeds: Option<seq<string>>) returns (result: FlowResult)
    modifies entry
    ensures feeds.None? ==> result == Form(map[]) && entry.data == old(entry.data)
    ensures feeds.Some? ==> result == OptionsSaved && entry.data == EntryData(old(entry.data).icaoCodes, feeds.value)
  {
    if feeds.None? {
      return Form(map[]);
    }
    entry.data := EntryData(entry.data.icaoCodes, feeds.value);
    return OptionsSaved;
  }
}
