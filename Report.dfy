/** The key-testing report of tapik.py (`test_api_keys` and its inner
    `print_test_result`). For each key, in input order, a three-line header
    box is printed, then one result block per endpoint of the fixed list of
    eleven Google APIs. Printing is modelled as appending to a sequence of
    output items, one item per `print` call; the HTTP probe of each endpoint
    is an abstract function from the endpoint and the key to the response
    body text. */
module Report {
  import opened Classifier

  /** The eleven endpoints probed for every key. */
  datatype Api =
    | NaturalLanguage | MapsGeocoding | Books | YouTube | CustomSearch | Translate
    | Places | TimeZone | CivicInformation | Blogger | Fonts
  {
    /** The display name printed in the endpoint's result line. */
    function Name(): string {
      match this
      case NaturalLanguage => "Google Natural Language API"
      case MapsGeocoding => "Google Maps Geocoding API"
      case Books => "Google Books API"
      case YouTube => "Google YouTube Data API"
      case CustomSearch => "Google Custom Search API"
      case Translate => "Google Translate API"
      case Places => "Google Places API"
      case TimeZone => "Google Time Zone API"
      case CivicInformation => "Google Civic Information API"
      case Blogger => "Google Blogger API"
      case Fonts => "Google Fonts API"
    }
  }

  /** The order in which the endpoints are probed for each key. */
  const Endpoints: seq<Api> :=
    [NaturalLanguage, MapsGeocoding, Books, YouTube, CustomSearch, Translate,
     Places, TimeZone, CivicInformation, Blogger, Fonts]

  /** The catalog is eleven distinct endpoints, shown under these names in this order. */
  lemma EndpointCatalog()
    ensures |Endpoints| == 11
    ensures forall i, j | 0 <= i < j < |Endpoints| :: Endpoints[i] != Endpoints[j]
    ensures seq(|Endpoints|, i requires 0 <= i < |Endpoints| => Endpoints[i].Name()) ==
      ["Google Natural Language API", "Google Maps Geocoding API", "Google Books API",
       "Google YouTube Data API", "Google Custom Search API", "Google Translate API",
       "Google Places API", "Google Time Zone API", "Google Civic Information API",
       "Google Blogger API", "Google Fonts API"]
  {
  }

  /** A probe sends one fixed request for an endpoint with the key and yields the response body. */
  type Probe = (Api, string) -> string

  /** Python's `c * n` for a one-character string `c`. */
  function Repeat(c: char, n: nat): (r: string)
    ensures |r| == n
    ensures forall i | 0 <= i < n :: r[i] == c
  {
    if n == 0 then [] else Repeat(c, n - 1) + [c]
  }

  /** The line printed after every result block. */
  const Spacer: string := Repeat('─', 60)

  const Title: string := "Testing API Key:"

  /** The box printed before the results of `key`: a border sized from the
      title and key, the title line, and the same border again. All three
      lines have the same length, and the borders are rules of '─' between
      two corners. */
  function HeaderBox(key: string): (lines: seq<string>)
    ensures |lines| == 3
    ensures |lines[0]| == |lines[1]| == |lines[2]| == |Title| + |key| + 5
    ensures lines[1] == "│ " + Title + " " + key + " │"
    ensures forall i | 0 < i < |lines[0]| - 1 :: lines[0][i] == '─' && lines[2][i] == '─'
  {
    var top := |Title + key| + 3;
    var rule := Repeat('─', top);
    ["╭" + rule + "╮", "│ " + Title + " " + key + " │", "╰" + rule + "╯"]
  }

  /** What the report shows for one probe. */
  datatype Status = Denied | Succeeded

  /** The display decision of `print_test_result`: a verdict is shown as
      denied exactly when it is one of the marker strings. */
  function Display(result: string): (s: Status)
    ensures s == Denied <==> result == ErrorMessages[0] || result == ErrorMessages[1] || result == ErrorMessages[2]
    ensures s == Denied ==> HasMarker(result)
  {
    if result in ErrorMessages then
      OccursInSelf(result);
      Denied
    else
      Succeeded
  }

  function StatusLine(status: Status, apiName: string): string {
    match status
    case Denied => "❌ [DENIED] | " + apiName
    case Succeeded => "✅ [WORKED] | " + apiName
  }

  /** The items printed for one verdict: the status line, then the verdict
      itself when verbose and not denied, then the spacer. */
  function ResultBlock(apiName: string, result: string, verbose: bool): (b: seq<string>)
    ensures |b| == (if verbose && Display(result) == Succeeded then 3 else 2)
    ensures b[0] == StatusLine(Display(result), apiName)
    ensures |b| == 3 ==> b[1] == result
    ensures b[|b| - 1] == Spacer
  {
    match Display(result)
    case Denied => [StatusLine(Denied, apiName), Spacer]
    case Succeeded => [StatusLine(Succeeded, apiName)] + (if verbose then [result] else []) + [Spacer]
  }

  /** The block for probing `api` with `key`. */
  function ProbeBlock(api: Api, key: string, verbose: bool, probe: Probe): seq<string> {
    ResultBlock(api.Name(), ProcessResponse(probe(api, key), verbose), verbose)
  }

  /** The blocks for probing each of `apis`, in order. */
  function Blocks(apis: seq<Api>, key: string, verbose: bool, probe: Probe): seq<string> {
    if apis == [] then []
    else Blocks(apis[..|apis| - 1], key, verbose, probe) + ProbeBlock(apis[|apis| - 1], key, verbose, probe)
  }

  /** Everything printed for one key. */
  function KeyReport(key: string, verbose: bool, probe: Probe): seq<string> {
    HeaderBox(key) + Blocks(Endpoints, key, verbose, probe)
  }

  /** Everything printed for a list of keys, in input order. */
  function FullReport(keys: seq<string>, verbose: bool, probe: Probe): seq<string> {
    if keys == [] then []
    else FullReport(keys[..|keys| - 1], verbose, probe) + KeyReport(keys[|keys| - 1], verbose, probe)
  }

  /** `print_test_result`: probe one endpoint and emit its block. */
  method PrintTestResult(api: Api, key: string, verbose: bool, probe: Probe) returns (out: seq<string>)
    ensures out == ProbeBlock(api, key, verbose, probe)
  {
    var result := ProcessResponse(probe(api, key), verbose);
    if result in ErrorMessages {
      out := [StatusLine(Denied, api.Name())];
    } else {
      out := [StatusLine(Succeeded, api.Name())];
      if verbose {
        out := out + [result];
      }
    }
    out := out + [Spacer];
  }

  /** The eleven `print_test_result` calls of one key, as a loop over the
      endpoint list: the blocks of `apis`, in order. */
  method PrintTestResults(apis: seq<Api>, key: string, verbose: bool, probe: Probe) returns (blocks: seq<string>)
    ensures blocks == Blocks(apis, key, verbose, probe)
  {
    blocks := [];
    for j := 0 to |apis|
      invariant blocks == Blocks(apis[..j], key, verbose, probe)
    {
      var block := PrintTestResult(apis[j], key, verbose, probe);
      assert apis[..j + 1][..j] == apis[..j];
      blocks := blocks + block;
    }
    assert apis[..|apis|] == apis;
  }

  /** The body of the loop of `test_api_keys` for one key: the header
      box, then the eleven endpoint blocks in order. */
  method TestKey(key: string, verbose: bool, probe: Probe) returns (out: seq<string>)
    ensures out == KeyReport(key, verbose, probe)
  {
    var header := HeaderBox(key);
    var blocks := PrintTestResults(Endpoints, key, verbose, probe);
    out := header + blocks;
  }

  /** `test_api_keys`: the report of each key, appended in input order. */
  method TestApiKeys(keys: seq<string>, verbose: bool, probe: Probe) returns (out: seq<string>)
    ensures out == FullReport(keys, verbose, probe)
  {
    out := [];
    for i := 0 to |keys|
      invariant out == FullReport(keys[..i], verbose, probe)
    {
      var lines := TestKey(keys[i], verbose, probe);
      assert keys[..i + 1][..i] == keys[..i];
      out := out + lines;
    }
    assert keys[..|keys|] == keys;
  }

  /** The key property: a probe is reported as denied exactly when its
      response body contains one of the three markers, in verbose and in
      non-verbose mode alike. A marker-free body returned verbatim cannot be
      mistaken for a marker, because every marker contains itself. */
  lemma DeniedIffMarker(body: string, verbose: bool)
    ensures Display(ProcessResponse(body, verbose)) == Denied <==> HasMarker(body)
  {
    if !HasMarker(body) {
      if verbose {
        MarkerFreeIsNotMarker(body);
      } else {
        assert Worked !in ErrorMessages;
      }
    }
  }

  /** The shape of one probe's block: the status line names the endpoint
      and says DENIED exactly when the body has a marker; a third item, the
      body itself, appears only when verbose and not denied; the block
      always ends with the spacer. */
  lemma ProbeBlockShape(api: Api, key: string, verbose: bool, probe: Probe)
    ensures var b := ProbeBlock(api, key, verbose, probe);
            var body := probe(api, key);
            && |b| == (if verbose && !HasMarker(body) then 3 else 2)
            && b[0] == StatusLine(if HasMarker(body) then Denied else Succeeded, api.Name())
            && (verbose && !HasMarker(body) ==> b[1] == body)
            && b[|b| - 1] == Spacer
  {
    DeniedIffMarker(probe(api, key), verbose);
  }

  /** The number of `apis` whose probe with `key` comes back without a marker. */
  ghost function SucceededCount(apis: seq<Api>, key: string, probe: Probe): nat {
    if apis == [] then 0
    else SucceededCount(apis[..|apis| - 1], key, probe) + (if HasMarker(probe(apis[|apis| - 1], key)) then 0 else 1)
  }

  /** Two items per endpoint, plus one for each success in verbose mode. */
  lemma {:induction false} BlocksLength(apis: seq<Api>, key: string, verbose: bool, probe: Probe)
    ensures |Blocks(apis, key, verbose, probe)| == 2 * |apis| + (if verbose then SucceededCount(apis, key, probe) else 0)
  {
    if apis != [] {
      BlocksLength(apis[..|apis| - 1], key, verbose, probe);
      ProbeBlockShape(apis[|apis| - 1], key, verbose, probe);
    }
  }

  /** What the report should show for a body: denied exactly when it holds a marker. */
  ghost function Expected(body: string): Status {
    if HasMarker(body) then Denied else Succeeded
  }

  /** Each item of `xs` followed by `sep`, in order. */
  function Interleave(xs: seq<string>, sep: string): seq<string> {
    if xs == [] then [] else Interleave(xs[..|xs| - 1], sep) + [xs[|xs| - 1], sep]
  }

  /** Item 2j of an interleaving is xs[j] and item 2j+1 is the separator. */
  lemma {:induction false} InterleaveAt(xs: seq<string>, sep: string)
    ensures |Interleave(xs, sep)| == 2 * |xs|
    ensures forall j | 0 <= j < |xs| :: Interleave(xs, sep)[2 * j] == xs[j] && Interleave(xs, sep)[2 * j + 1] == sep
  {
    if xs != [] {
      var n := |xs| - 1;
      InterleaveAt(xs[..n], sep);
      var prev := Interleave(xs[..n], sep);
      forall j | 0 <= j < |xs|
        ensures (prev + [xs[n], sep])[2 * j] == xs[j] && (prev + [xs[n], sep])[2 * j + 1] == sep
      {
        if j < n {
          assert xs[..n][j] == xs[j];
        }
      }
    }
  }

  /** The status lines the report should show for `apis`, in order. */
  ghost function ExpectedLines(apis: seq<Api>, key: string, probe: Probe): seq<string> {
    seq(|apis|, j requires 0 <= j < |apis| => StatusLine(Expected(probe(apis[j], key)), apis[j].Name()))
  }

  /** In non-verbose mode the blocks are a status line and a spacer per
      endpoint of `apis`, in order; the status line says DENIED exactly when
      that endpoint's body holds a marker. */
  lemma {:induction false} BlocksNonVerbose(apis: seq<Api>, key: string, probe: Probe)
    ensures Blocks(apis, key, false, probe) == Interleave(ExpectedLines(apis, key, probe), Spacer)
  {
    if apis != [] {
      var n := |apis| - 1;
      BlocksNonVerbose(apis[..n], key, probe);
      ProbeBlockShape(apis[n], key, false, probe);
      var xs := ExpectedLines(apis, key, probe);
      assert xs[..n] == ExpectedLines(apis[..n], key, probe);
      assert xs[..|xs| - 1] == xs[..n];
    }
  }

  /** The same, by position: item 2j is the status line of endpoint j and
      item 2j+1 the spacer. */
  lemma BlocksNonVerboseAt(apis: seq<Api>, key: string, probe: Probe)
    ensures |Blocks(apis, key, false, probe)| == 2 * |apis|
    ensures forall j | 0 <= j < |apis| ::
      && Blocks(apis, key, false, probe)[2 * j] == StatusLine(Expected(probe(apis[j], key)), apis[j].Name())
      && Blocks(apis, key, false, probe)[2 * j + 1] == Spacer
  {
    BlocksNonVerbose(apis, key, probe);
    InterleaveAt(ExpectedLines(apis, key, probe), Spacer);
  }

  /** One key's output: the header box, then 22 to 33 items, 22 exactly
      when not verbose. */
  lemma KeyReportLength(key: string, verbose: bool, probe: Probe)
    ensures KeyReport(key, verbose, probe)[..3] == HeaderBox(key)
    ensures 25 <= |KeyReport(key, verbose, probe)| <= 36
    ensures !verbose ==> |KeyReport(key, verbose, probe)| == 25
  {
    BlocksLength(Endpoints, key, verbose, probe);
    SucceededCountBound(Endpoints, key, probe);
  }

  lemma {:induction false} SucceededCountBound(apis: seq<Api>, key: string, probe: Probe)
    ensures SucceededCount(apis, key, probe) <= |apis|
  {
    if apis != [] {
      SucceededCountBound(apis[..|apis| - 1], key, probe);
    }
  }

  /** Keys are reported in input order: the report of a concatenation of
      key lists is the concatenation of their reports. */
  lemma {:induction false} FullReportConcat(keys1: seq<string>, keys2: seq<string>, verbose: bool, probe: Probe)
    ensures FullReport(keys1 + keys2, verbose, probe) == FullReport(keys1, verbose, probe) + FullReport(keys2, verbose, probe)
    decreases |keys2|
  {
    if keys2 != [] {
      var n := |keys2| - 1;
      assert (keys1 + keys2)[..|keys1 + keys2| - 1] == keys1 + keys2[..n];
      FullReportConcat(keys1, keys2[..n], verbose, probe);
    } else {
      assert keys1 + keys2 == keys1;
    }
  }

  /** In non-verbose mode every key takes exactly 25 items, so the report
      of key number i sits at items 25 * i to 25 * i + 25. */
  lemma {:induction false} FullReportNonVerbose(keys: seq<string>, probe: Probe)
    ensures |FullReport(keys, false, probe)| == 25 * |keys|
    ensures forall i | 0 <= i < |keys| ::
      FullReport(keys, false, probe)[25 * i..25 * i + 25] == KeyReport(keys[i], false, probe)
  {
    if keys != [] {
      var n := |keys| - 1;
      FullReportNonVerbose(keys[..n], probe);
      KeyReportLength(keys[n], false, probe);
      var prev := FullReport(keys[..n], false, probe);
      var last := KeyReport(keys[n], false, probe);
      assert FullReport(keys, false, probe) == prev + last;
      forall i | 0 <= i < |keys|
        ensures (prev + last)[25 * i..25 * i + 25] == KeyReport(keys[i], false, probe)
      {
        ChunkOfAppend(prev, last, n, i);
        if i < n {
          assert keys[..n][i] == keys[i];
        }
      }
    }
  }

  /** Appending a 25-item chunk to n such chunks keeps the first n in place. */
  lemma ChunkOfAppend(prev: seq<string>, last: seq<string>, n: nat, i: nat)
    requires |prev| == 25 * n && |last| == 25 && i <= n
    ensures i < n ==> (prev + last)[25 * i..25 * i + 25] == prev[25 * i..25 * i + 25]
    ensures i == n ==> (prev + last)[25 * i..25 * i + 25] == last
  {
    if i == n {
      assert (prev + last)[|prev|..] == last;
    }
  }
}
