/** The application state `AppState` (js/app.js:2-7) and the operations
    that change it: saving the API settings, clearing the form, displaying a
    listing, one platform's generation call and a whole generation run. */
module Session {
  import opened Wrappers
  import opened Text
  import opened Words
  import opened Property
  import opened Prompt
  import opened Demo
  import opened Response
  import opened Validation
  import opened Permutations

  /** One displayed listing: `{platform, content}`. */
  datatype Listing = Listing(platform: string, content: string)

  /** A message shown in the error banner or in the success banner. */
  datatype Message = ErrorMessage(text: string) | SuccessMessage(text: string)

  const DefaultModel: string := "gemini-1.5-flash"
  const KeySavedMessage: string := "\U{2705} API Configuration saved successfully!"
  const FormClearedMessage: string := "\U{1F504} Form cleared successfully!"
  const ConfigureKeyMessage: string := "\U{1F511} Please configure your Gemini API key first!"
  const AllSuccessfulMessage: string := "\U{1F389} All listings generated successfully!"
  const AllDemoMessage: string := "\U{26A0}\U{FE0F} All listings are showing demo versions. "
    + "Please check your API key and try again."

  /** A stored setting read with `|| default`: absent and empty both give
      the default. */
  function StoredOr(stored: Option<string>, default: Option<string>): Option<string>
  {
    if stored.Some? && stored.value != "" then stored else default
  }

  /** The word total of the statistics panel: the sum of the listings'
      word counts. */
  function TotalWords(listings: seq<Listing>): nat
  {
    if listings == [] then 0 else WordCount(listings[0].content) + TotalWords(listings[1..])
  }

  /** Appending a listing raises the word total by that listing's words. */
  lemma {:induction false} TotalWordsAppend(listings: seq<Listing>, listing: Listing)
    ensures TotalWords(listings + [listing]) == TotalWords(listings) + WordCount(listing.content)
  {
    if listings != [] {
      assert (listings + [listing])[1..] == listings[1..] + [listing];
      TotalWordsAppend(listings[1..], listing);
    }
  }

  /** Taking one listing out lowers the word total by its words. */
  lemma {:induction false} TotalWordsRemoveAt(listings: seq<Listing>, j: nat)
    requires j < |listings|
    ensures TotalWords(listings)
      == WordCount(listings[j].content) + TotalWords(listings[..j] + listings[j + 1..])
  {
    if j > 0 {
      TotalWordsRemoveAt(listings[1..], j - 1);
      assert listings[1..][..j - 1] + listings[1..][j..] == (listings[..j] + listings[j + 1..])[1..];
    } else {
      assert listings[..0] + listings[1..] == listings[1..];
    }
  }

  /** The word total does not depend on the order of the listings. */
  lemma {:induction false} TotalWordsPermutation(a: seq<Listing>, b: seq<Listing>)
    requires multiset(a) == multiset(b)
    ensures TotalWords(a) == TotalWords(b)
    decreases |a|
  {
    if a == [] {
      assert |multiset(b)| == 0;
    } else {
      assert a[0] in multiset(b);
      var j :| 0 <= j < |b| && b[j] == a[0];
      RemoveMatching(a, b, j);
      TotalWordsPermutation(a[1..], b[..j] + b[j + 1..]);
      TotalWordsRemoveAt(b, j);
    }
  }

  /** The listing one platform's call displays: the accepted text, or the
      demo listing when the call failed. */
  function ListingFor(platform: Platform, p: PropertyInfo, exchange: Exchange): (l: Listing)
    ensures l.platform == platform.name
    ensures Classify(exchange).Failure? ==> IsInfix(DemoMarker, l.content)
  {
    match Classify(exchange)
    case Success(text) => Listing(platform.name, text)
    case Failure(_) =>
      DemoMentions(platform.name, p);
      Listing(platform.name, GenerateDemoListing(platform.name, p))
  }

  /** A platform's listing is the reply's offered text, trimmed, exactly
      when the reply is acceptable, and the demo listing for that platform
      and record otherwise. */
  lemma ListingForCases(platform: Platform, p: PropertyInfo, exchange: Exchange)
    ensures Acceptable(exchange) ==>
      ListingFor(platform, p, exchange).content == Trim(OfferedText(exchange).value)
    ensures !Acceptable(exchange) ==>
      ListingFor(platform, p, exchange).content == GenerateDemoListing(platform.name, p)
  {
    ClassifySuccessIff(exchange);
  }

  /** Whatever order the calls complete in, a run displays every
      platform's listing exactly once, and the word total is the same as in
      platform order. */
  lemma RunListingsOrderFree(p: PropertyInfo, exchanges: seq<Exchange>, order: seq<nat>)
    requires |exchanges| == |Platforms|
    requires IsPermutation(order, |Platforms|)
    ensures IndicesBelow(order, |Platforms|)
    ensures var all := PlatformListings(p, exchanges);
      && multiset(Pick(all, order)) == multiset(all)
      && TotalWords(Pick(all, order)) == TotalWords(all)
  {
    var all := PlatformListings(p, exchanges);
    PickPermutation(all, order);
    TotalWordsPermutation(Pick(all, order), all);
  }

  /** What one platform's call resolves to: `{error}` with the caught
      message, or nothing. */
  function CallResult(exchange: Exchange): Option<string>
  {
    match Classify(exchange)
    case Success(_) => None
    case Failure(message) => Some(message)
  }

  /** The listing of every platform, in platform order. */
  function PlatformListings(p: PropertyInfo, exchanges: seq<Exchange>): (r: seq<Listing>)
    requires |exchanges| == |Platforms|
    ensures |r| == |Platforms|
    ensures forall i :: 0 <= i < |r| ==> r[i] == ListingFor(Platforms[i], p, exchanges[i])
  {
    seq(|Platforms|, i requires 0 <= i < |Platforms| => ListingFor(Platforms[i], p, exchanges[i]))
  }

  /** The results once the calls named in `done` have completed: the
      result of each completed call, and nothing yet for the others. */
  function Settled(results: seq<Option<string>>, done: seq<nat>): (r: seq<Option<string>>)
    ensures |r| == |results|
  {
    seq(|results|, i requires 0 <= i < |results| => if i in done then results[i] else None)
  }

  /** One more completed call adds its result. */
  lemma SettledStep(results: seq<Option<string>>, done: seq<nat>, i: nat)
    requires i < |results|
    ensures Settled(results, done + [i]) == Settled(results, done)[i := results[i]]
  {
    var a, b := Settled(results, done + [i]), Settled(results, done)[i := results[i]];
    forall j | 0 <= j < |results| ensures a[j] == b[j] {
      assert j in done + [i] <==> j in done || j == i;
    }
  }

  /** Once every call of a completion order has completed, every result is
      in. */
  lemma SettledAll(results: seq<Option<string>>, order: seq<nat>)
    requires IsPermutation(order, |results|)
    ensures Settled(results, order) == results
  {
    PermutationBounds(order, |results|);
  }

  /** A settled result counts as an error when it carries a non-empty
      message (`result.value && result.value.error`). */
  predicate Reported(result: Option<string>)
  {
    result.Some? && result.value != ""
  }

  /** The `errors` list built from the settled results, in platform
      order: "name: message" for every reported error. */
  function ErrorLines(names: seq<string>, results: seq<Option<string>>): seq<string>
    requires |names| == |results|
    decreases |results|
  {
    if results == [] then []
    else
      var n := |results| - 1;
      ErrorLines(names[..n], results[..n])
      + (if Reported(results[n]) then [ErrorLine(names[n], results[n].value)] else [])
  }

  /** One line of the `errors` list. */
  function ErrorLine(name: string, message: string): string
  {
    name + ": " + message
  }

  /** The positions of the reported errors: each holds a reported result,
      and they increase. */
  function ReportedPositions(results: seq<Option<string>>): (at: seq<nat>)
    ensures forall k :: 0 <= k < |at| ==> at[k] < |results| && Reported(results[at[k]])
    ensures forall k, l :: 0 <= k < l < |at| ==> at[k] < at[l]
    decreases |results|
  {
    if results == [] then []
    else
      var n := |results| - 1;
      ReportedPositions(results[..n]) + (if Reported(results[n]) then [n] else [])
  }

  /** Every reported result has a position. */
  lemma {:induction false} ReportedPositionsComplete(results: seq<Option<string>>)
    ensures forall i :: 0 <= i < |results| && Reported(results[i]) ==> i in ReportedPositions(results)
    decreases |results|
  {
    if results != [] {
      var n := |results| - 1;
      ReportedPositionsComplete(results[..n]);
      forall i | 0 <= i < n && Reported(results[i])
        ensures i in ReportedPositions(results[..n])
      {
        assert results[..n][i] == results[i];
      }
    }
  }

  /** The error lines follow platform order: the `k`-th line is
      "name: message" for the `k`-th reported position. */
  lemma {:induction false} ErrorLinesAtPositions(names: seq<string>, results: seq<Option<string>>)
    requires |names| == |results|
    ensures var lines, at := ErrorLines(names, results), ReportedPositions(results);
      && |lines| == |at|
      && forall k :: 0 <= k < |at| ==> lines[k] == ErrorLine(names[at[k]], results[at[k]].value)
    decreases |results|
  {
    if results != [] {
      var n := |results| - 1;
      ErrorLinesAtPositions(names[..n], results[..n]);
      var lines, at := ErrorLines(names[..n], results[..n]), ReportedPositions(results[..n]);
      var allLines, allAt := ErrorLines(names, results), ReportedPositions(results);
      forall k | 0 <= k < |allAt|
        ensures allLines[k] == ErrorLine(names[allAt[k]], results[allAt[k]].value)
      {
        if k < |at| {
          assert allLines[k] == lines[k] && allAt[k] == at[k];
          assert names[..n][at[k]] == names[at[k]] && results[..n][at[k]] == results[at[k]];
        }
      }
    }
  }

  /** The number of reported errors among the settled results. */
  function ReportedCount(results: seq<Option<string>>): nat
    decreases |results|
  {
    if results == [] then 0
    else
      var n := |results| - 1;
      ReportedCount(results[..n]) + (if Reported(results[n]) then 1 else 0)
  }

  /** There is one error line per reported error. */
  lemma {:induction false} ErrorLinesCount(names: seq<string>, results: seq<Option<string>>)
    requires |names| == |results|
    ensures |ErrorLines(names, results)| == ReportedCount(results)
    decreases |results|
  {
    if results != [] {
      var n := |results| - 1;
      ErrorLinesCount(names[..n], results[..n]);
    }
  }

  /** The error count is zero exactly when no result is reported, and full
      exactly when every result is. */
  lemma {:induction false} ReportedCountBounds(results: seq<Option<string>>)
    ensures ReportedCount(results) <= |results|
    ensures ReportedCount(results) == 0 <==> forall i :: 0 <= i < |results| ==> !Reported(results[i])
    ensures ReportedCount(results) == |results| <==> forall i :: 0 <= i < |results| ==> Reported(results[i])
    decreases |results|
  {
    if results != [] {
      var n := |results| - 1;
      ReportedCountBounds(results[..n]);
      assert forall i :: 0 <= i < n ==> results[..n][i] == results[i];
    }
  }

  /** The success message of a run in which some calls failed: it opens
      with the number of listings generated and names the number of calls
      that had issues, each as a whole numeral between fixed words, and it
      is never the all-successful message. */
  function PartialSuccessMessage(succeeded: nat, failed: nat): (r: string)
    ensures StartsWith(r, "\U{2705} " + NatToString(succeeded) + " listings generated")
    ensures IsInfix("successfully! " + NatToString(failed) + " had issues", r)
    ensures r != AllSuccessfulMessage
  {
    var head := "\U{2705} " + NatToString(succeeded) + " listings generated";
    var middle := "successfully! " + NatToString(failed) + " had issues";
    var r := Concat([head, " ", middle, " but demo versions were created."]);
    PieceIsInfix([head, " ", middle, " but demo versions were created."], 2);
    assert r[..|head|] == head;
    assert r[0] != AllSuccessfulMessage[0];
    r
  }

  /** The message that closes a run with `errorCount` errors out of
      `platformCount` platforms. */
  function RunSummary(errorCount: nat, platformCount: nat): Message
  {
    if errorCount == 0 then SuccessMessage(AllSuccessfulMessage)
    else if errorCount < platformCount then
      SuccessMessage(PartialSuccessMessage(platformCount - errorCount, errorCount))
    else ErrorMessage(AllDemoMessage)
  }

  /** The run closes with "all successful" exactly when no platform
      reported an error. */
  lemma RunSummaryAllSuccessful(results: seq<Option<string>>)
    requires |results| > 0
    ensures RunSummary(ReportedCount(results), |results|) == SuccessMessage(AllSuccessfulMessage)
      <==> forall i :: 0 <= i < |results| ==> !Reported(results[i])
  {
    ReportedCountBounds(results);
  }

  /** The run closes with the all-demo error exactly when every platform
      reported an error. */
  lemma RunSummaryAllDemo(results: seq<Option<string>>)
    requires |results| > 0
    ensures RunSummary(ReportedCount(results), |results|) == ErrorMessage(AllDemoMessage)
      <==> forall i :: 0 <= i < |results| ==> Reported(results[i])
  {
    ReportedCountBounds(results);
  }

  /** The run closes with a success message exactly when some platform
      succeeded. */
  lemma RunSummarySucceeds(results: seq<Option<string>>)
    requires |results| > 0
    ensures RunSummary(ReportedCount(results), |results|).SuccessMessage?
      <==> exists i :: 0 <= i < |results| && !Reported(results[i])
  {
    ReportedCountBounds(results);
  }

  class AppSession {
    /** `AppState.listings`: the listings displayed since the last reset. */
    var listings: seq<Listing>
    /** `AppState.apiKey`; `None` is `null`. */
    var apiKey: Option<string>
    /** `AppState.model`. */
    var model: string
    /** `AppState.isGenerating`. */
    var generating: bool

    /** The state at start-up, from what the settings storage holds. */
    constructor(storedKey: Option<string>, storedModel: Option<string>)
      ensures listings == [] && !generating
      ensures apiKey == StoredOr(storedKey, None)
      ensures model == StoredOr(storedModel, Some(DefaultModel)).value
    {
      listings := [];
      apiKey := StoredOr(storedKey, None);
      model := StoredOr(storedModel, Some(DefaultModel)).value;
      generating := false;
    }

    /** `saveApiConfig`: an accepted key is stored, trimmed, together with
        the selected model; a refused key changes nothing. */
    method SaveApiConfig(entered: string, selectedModel: string) returns (message: Message)
      modifies this
      ensures listings == old(listings) && generating == old(generating)
      ensures var outcome := ValidateApiKey(entered);
        if outcome.Success? then
          apiKey == Some(outcome.value) && model == selectedModel && message == SuccessMessage(KeySavedMessage)
        else
          apiKey == old(apiKey) && model == old(model) && message == ErrorMessage(outcome.error)
    {
      message := ApplyKeyCheck(ValidateApiKey(entered), selectedModel);
    }

    /** The rest of `saveApiConfig` once the key has been checked. */
    method ApplyKeyCheck(outcome: Result<string, string>, selectedModel: string) returns (message: Message)
      modifies this
      ensures listings == old(listings) && generating == old(generating)
      ensures if outcome.Success? then
          apiKey == Some(outcome.value) && model == selectedModel && message == SuccessMessage(KeySavedMessage)
        else
          apiKey == old(apiKey) && model == old(model) && message == ErrorMessage(outcome.error)
    {
      if outcome.Success? {
        apiKey := Some(outcome.value);
        model := selectedModel;
        message := SuccessMessage(KeySavedMessage);
      } else {
        message := ErrorMessage(outcome.error);
      }
    }

    /** `clearForm`: when the user confirms, the listings are dropped. */
    method ClearForm(confirmed: bool) returns (message: Option<Message>)
      modifies this
      ensures apiKey == old(apiKey) && model == old(model) && generating == old(generating)
      ensures confirmed ==> listings == [] && message == Some(SuccessMessage(FormClearedMessage))
      ensures !confirmed ==> listings == old(listings) && message == None
    {
      message := None;
      if confirmed {
        listings := [];
        message := Some(SuccessMessage(FormClearedMessage));
      }
    }

    /** `updateStats`: the listing count and the word total shown in the
        statistics panel. */
    method UpdateStats() returns (count: nat, words: nat)
      ensures count == |listings|
      ensures words == TotalWords(listings)
    {
      count := |listings|;
      words := 0;
      for i := 0 to |listings|
        invariant words == TotalWords(listings[..i])
      {
        assert listings[..i + 1] == listings[..i] + [listings[i]];
        TotalWordsAppend(listings[..i], listings[i]);
        words := words + WordCount(listings[i].content);
      }
      assert listings[..|listings|] == listings;
    }

    /** `displayListing`: appends one listing and refreshes the statistics;
        the word total grows by exactly the new listing's words. */
    method DisplayListing(platform: string, content: string) returns (count: nat, words: nat)
      modifies this
      ensures listings == old(listings) + [Listing(platform, content)]
      ensures apiKey == old(apiKey) && model == old(model) && generating == old(generating)
      ensures count == |old(listings)| + 1
      ensures words == TotalWords(old(listings)) + WordCount(content)
    {
      TotalWordsAppend(listings, Listing(platform, content));
      listings := listings + [Listing(platform, content)];
      count, words := UpdateStats();
    }

    /** `generateAIListing` for one platform, given what the service
        answered: exactly one listing is displayed, the accepted text or the
        demo listing, and a failure resolves to its message instead of
        propagating. */
    method GenerateAIListing(platform: Platform, p: PropertyInfo, exchange: Exchange)
      returns (result: Option<string>)
      modifies this
      ensures listings == old(listings) + [ListingFor(platform, p, exchange)]
      ensures apiKey == old(apiKey) && model == old(model) && generating == old(generating)
      ensures result == CallResult(exchange)
    {
      var outcome := Classify(exchange);
      var content;
      if outcome.Success? {
        content := outcome.value;
        result := None;
      } else {
        content := GenerateDemoListing(platform.name, p);
        result := Some(outcome.error);
      }
      var _, _ := DisplayListing(platform.name, content);
    }

    /** The call for platform `i` completes: its listing is appended and its
        result settles. */
    method CompleteCall(p: PropertyInfo, exchanges: seq<Exchange>, i: nat)
      returns (result: Option<string>)
      requires |exchanges| == |Platforms| && i < |Platforms|
      modifies this
      ensures listings == old(listings) + [PlatformListings(p, exchanges)[i]]
      ensures apiKey == old(apiKey) && model == old(model) && generating == old(generating)
      ensures result == CallResults(exchanges)[i]
    {
      result := GenerateAIListing(Platforms[i], p, exchanges[i]);
    }

    /** The platform calls of a run, completing in the order `order` gives:
        each appends its listing, and the settled results come back indexed
        by platform. */
    method CompleteCalls(p: PropertyInfo, exchanges: seq<Exchange>, order: seq<nat>)
      returns (results: seq<Option<string>>)
      requires |exchanges| == |Platforms|
      requires IsPermutation(order, |Platforms|)
      modifies this
      ensures IndicesBelow(order, |Platforms|)
      ensures listings == old(listings) + Pick(PlatformListings(p, exchanges), order)
      ensures apiKey == old(apiKey) && model == old(model) && generating == old(generating)
      ensures results == CallResults(exchanges)
    {
      PermutationBounds(order, |Platforms|);
      var n := |Platforms|;
      var all, calls := PlatformListings(p, exchanges), CallResults(exchanges);
      results := seq(n, _ => None);
      assert results == Settled(calls, []);
      for k := 0 to n
        invariant IndicesBelow(order[..k], n)
        invariant listings == old(listings) + Pick(all, order[..k])
        invariant apiKey == old(apiKey) && model == old(model) && generating == old(generating)
        invariant results == Settled(calls, order[..k])
      {
        var i := order[k];
        assert order[..k + 1] == order[..k] + [i];
        PickAppend(old(listings), all, order[..k], i);
        SettledStep(calls, order[..k], i);
        var result := CompleteCall(p, exchanges, i);
        results := results[i := result];
      }
      assert order[..n] == order;
      SettledAll(calls, order);
    }

    /** The generation part of `handleFormSubmit`: the listings are reset,
        every platform's call completes in the order `order` gives and
        appends its listing, the errors are then collected in platform
        order, and the run closes with the summary message. */
    method RunGeneration(p: PropertyInfo, exchanges: seq<Exchange>, order: seq<nat>)
      returns (errors: seq<string>, message: Message)
      requires |exchanges| == |Platforms|
      requires IsPermutation(order, |Platforms|)
      modifies this
      ensures IndicesBelow(order, |Platforms|)
      ensures listings == Pick(PlatformListings(p, exchanges), order)
      ensures apiKey == old(apiKey) && model == old(model) && !generating
      ensures errors == ErrorLines(PlatformNames(), CallResults(exchanges))
      ensures message == RunSummary(|errors|, |Platforms|)
    {
      PermutationBounds(order, |Platforms|);
      generating := true;
      listings := [];
      var _, _ := UpdateStats();
      var results := CompleteCalls(p, exchanges, order);
      errors := CollectErrors(PlatformNames(), results);
      var n := |Platforms|;
      message := RunSummary(|errors|, n);
      generating := false;
    }

    /** `handleFormSubmit`: without a key, or with a required field left
        blank, nothing changes and the matching message is shown; otherwise
        a generation run takes place on the record built from the form. */
    method HandleFormSubmit(data: FormData, features: seq<string>, exchanges: seq<Exchange>,
      order: seq<nat>) returns (message: Message)
      requires |exchanges| == |Platforms|
      requires IsPermutation(order, |Platforms|)
      modifies this
      ensures apiKey == old(apiKey) && model == old(model)
      ensures !HasKey(old(apiKey)) ==>
        message == ErrorMessage(ConfigureKeyMessage) && listings == old(listings)
        && generating == old(generating)
      ensures HasKey(old(apiKey)) && !AllFilled(data) ==>
        listings == old(listings) && generating == old(generating)
        && exists i :: 0 <= i < |RequiredFields| && FirstUnfilledAt(data, i)
             && message == ErrorMessage(MissingFieldMessage(RequiredFields[i]))
      ensures HasKey(old(apiKey)) && AllFilled(data) ==>
        && !generating
        && IndicesBelow(order, |Platforms|)
        && listings == Pick(PlatformListings(GatherPropertyInfo(data, features), exchanges), order)
        && message == RunSummary(ReportedCount(CallResults(exchanges)), |Platforms|)
    {
      if !HasKey(apiKey) {
        return ErrorMessage(ConfigureKeyMessage);
      }
      var missing := FirstMissingField(data);
      if missing.Some? {
        return ErrorMessage(MissingFieldMessage(missing.value));
      }
      var p := GatherPropertyInfo(data, features);
      var errors;
      errors, message := RunGeneration(p, exchanges, order);
      ErrorLinesCount(PlatformNames(), CallResults(exchanges));
    }
  }

  /** The `errors` loop of a run: walks the settled results in platform
      order and collects the reported errors. */
  method CollectErrors(names: seq<string>, results: seq<Option<string>>)
    returns (errors: seq<string>)
    requires |names| == |results|
    ensures errors == ErrorLines(names, results)
  {
    errors := [];
    for i := 0 to |results|
      invariant errors == ErrorLines(names[..i], results[..i])
    {
      assert names[..i + 1][..i] == names[..i] && results[..i + 1][..i] == results[..i];
      if results[i].Some? && results[i].value != "" {
        errors := errors + [ErrorLine(names[i], results[i].value)];
      }
    }
    assert names[..|results|] == names && results[..|results|] == results;
  }

  /** `AppState.apiKey` is truthy: set and not empty. */
  predicate HasKey(apiKey: Option<string>)
  {
    apiKey.Some? && apiKey.value != ""
  }

  /** Every required field is filled in. */
  predicate AllFilled(data: FormData)
  {
    forall i :: 0 <= i < |RequiredFields| ==> Filled(data, RequiredFields[i])
  }

  /** The platform names, in platform order. */
  function PlatformNames(): (r: seq<string>)
    ensures |r| == |Platforms| && forall i :: 0 <= i < |r| ==> r[i] == Platforms[i].name
  {
    seq(|Platforms|, i requires 0 <= i < |Platforms| => Platforms[i].name)
  }

  /** What every platform's call resolves to, in platform order. */
  function CallResults(exchanges: seq<Exchange>): (r: seq<Option<string>>)
    ensures |r| == |exchanges| && forall i :: 0 <= i < |r| ==> r[i] == CallResult(exchanges[i])
  {
    seq(|exchanges|, i requires 0 <= i < |exchanges| => CallResult(exchanges[i]))
  }
}
