# tapik: response classifier and key report, in Dafny

tapik is a command-line tool that checks what a leaked Google API key can do.
For each key it sends one request to each of eleven Google APIs. It then
classifies each response as denied or worked and prints a per-key report.
This project models the two pieces of logic in `tapik.py`:

- **the classifier** `process_response` (module `Classifier`, `Classifier.dfy`).
  It scans the response body for the three markers `PERMISSION_DENIED`,
  `INVALID_ARGUMENT` and `REQUEST_DENIED`. Matching is case-sensitive
  substring search. Any hit gives `"PERMISSION_DENIED"`. Otherwise the result
  is the body itself when verbose, or `"WORKED"` when not.
- **the report** `test_api_keys` with its inner `print_test_result` (module
  `Report`, `Report.dfy`). For each key, in input order, it prints a
  three-line header box. Then it prints one result block per endpoint, in a
  fixed order of eleven APIs. A block is a DENIED or WORKED line, then the
  verdict itself when verbose and worked, then a 60-character spacer.

Python's `p in t` on strings is modelled twice. `Classifier.OccursIn` is the
reference definition: an occurrence at some position. `Classifier.Contains`
is the position-by-position search, proved equal to it. Printing is modelled
as appending to a `seq<string>`, one item per `print` call. Each HTTP probe
is an abstract function `Probe` from the endpoint and the key to the
response body text.

The key fact proved is `Report.DeniedIffMarker`. The report shows DENIED for
a probe exactly when the body contains a marker, in both modes. In verbose
mode the classifier returns a marker-free body unchanged. The display step
then tests that string for exact membership in the marker list. This cannot
misfire, because a body equal to a marker contains that marker.

`tapik.py` has three case-sensitive markers, and every hit is reported as
`"PERMISSION_DENIED"`. It never reads the status code or the headers of the
response, so the classifier takes only the body text and the verbose flag.

## Model

| member | source | states |
|---|---|---|
| Classifier.Contains | tapik.py:22 | the search returns true exactly when the marker occurs at some position of the body (the reference `OccursIn`) |
| Classifier.AnyOccurs | tapik.py:21-22 | `any(...)` over the marker list is true exactly when some listed marker occurs in the body |
| Classifier.ProcessResponse | tapik.py:20-25 | a body with a marker gives "PERMISSION_DENIED" whatever `verbose` is; a marker-free body is returned unchanged when verbose and as "WORKED" otherwise |
| Classifier.MarkerAnywhereDenies | tapik.py:21-23 | any marker with any text before and after it gives "PERMISSION_DENIED", in both modes |
| Classifier.MarkerFreeIsNotMarker | tapik.py:21-25 | a body containing no marker is not itself one of the three markers |
| Classifier.NeverReturnsOtherMarkers | tapik.py:21-25 | the verdict is never "INVALID_ARGUMENT" or "REQUEST_DENIED"; the only marker it can be is "PERMISSION_DENIED" |
| Classifier.ProcessResponseIdempotent | tapik.py:20-25 | classifying a verdict again gives the same verdict |
| Classifier.NoUpperCaseNeverDenied | tapik.py:21-22 | matching is case-sensitive: a body without upper-case letters, such as a lower-case marker, is never denied |
| Report.Repeat | tapik.py:88-91 | `c * n` is n copies of the character c |
| Report.HeaderBox | tapik.py:89-94 | the three header lines all have length len(title) + len(key) + 5; the middle line is the title and key between the side bars; the borders are '─' between corners |
| Report.EndpointCatalog | tapik.py:110-120 | the endpoint list has eleven distinct entries, shown under the source's eleven display names in the source's order |
| Report.Display | tapik.py:100 | a verdict is shown as denied exactly when it equals one of the three marker strings; a verdict shown as denied contains a marker |
| Report.ResultBlock | tapik.py:100-108 | a block is the DENIED or WORKED status line naming the endpoint, then the verdict itself only when verbose and shown as worked, then the spacer |
| Report.PrintTestResult | tapik.py:96-108 | the items printed for one endpoint are the block of its classified probe result |
| Report.PrintTestResults | tapik.py:110-120 | the eleven calls for one key print exactly the blocks of the endpoints, in list order |
| Report.TestKey | tapik.py:88-120 | the items printed for one key are its header box followed by the eleven endpoint blocks in the fixed order |
| Report.TestApiKeys | tapik.py:86-120 | the loop over keys prints exactly the reports of the keys, in input order |
| Report.DeniedIffMarker | tapik.py:97-105 | a probe is displayed as DENIED exactly when its body contains a marker, in verbose and non-verbose mode |
| Report.ProbeBlockShape | tapik.py:96-108 | a block names its endpoint and says DENIED exactly when the body has a marker; the body is printed as a third item only when verbose and not denied; the block ends with the spacer |
| Report.BlocksLength | tapik.py:96-120 | the blocks take two items per endpoint, plus one per marker-free body when verbose |
| Report.BlocksNonVerbose | tapik.py:96-120 | without verbose, the blocks are one status line and one spacer per endpoint, in order, each status line DENIED exactly when that body holds a marker |
| Report.BlocksNonVerboseAt | tapik.py:110-120 | without verbose, item 2j is the status line of endpoint j and item 2j+1 is the spacer |
| Report.KeyReportLength | tapik.py:88-120 | a key's report starts with its header box and has 25 to 36 items, exactly 25 without verbose |
| Report.FullReportConcat | tapik.py:87 | keys are reported in input order: the report of two concatenated key lists is the concatenation of their reports |
| Report.FullReportNonVerbose | tapik.py:87-120 | without verbose, the report of key i is items 25i to 25i+25 of the output |

## Left out

- The HTTP requests of the eleven `test_google_*` probes (tapik.py:27-84) are network I/O through the `requests` library. Each probe is the abstract `Probe` function from endpoint and key to body text. So the model gives the same body to the same key and endpoint every time, which real network calls need not do. Transport errors are not modelled.
- Command-line parsing and key-file reading in `main` (tapik.py:124-153) are library and file I/O. The key-count line, the no-input message and the interrupt handling are left out too. Blank lines of a key file are passed on as keys, and the model accepts every key, including the empty one.
- The ASCII-art `banner` (tapik.py:6-18) and terminal rendering are cosmetic. Output is a sequence of strings, one per `print` call. A verbose body that spans several lines is one item.
