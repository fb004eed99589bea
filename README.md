# go-newznab in Dafny

This project models the core of go-newznab, a client library for Newznab
Usenet indexers. It has four parts.

- **The NZB document** (`nzb.dfy`, with `json.dfy`). This is the tree
  Nzb → Head → Meta and Nzb → File → Groups/Group and Segments/Segment. Its
  leaves are all strings. The model covers:
  - how `encoding/xml` fills the tree from an element tree;
  - how `encoding/json` writes it back out, including the two `MarshalJSON`
    hooks that erase the `groups` and `segments` wrappers.

  A Go slice is modelled as `Slice<T>`, which is nil or allocated. Go's
  nil-versus-empty distinctions are therefore exact:
  - a nil `[]Segment` is written as `null`;
  - the Groups hook uses `make`, so its array is never `null`;
  - `omitempty` drops both a nil and an empty slice.

  A reference decoder `FromJson` reads the JSON shape back. The round trip is
  proved for every document that can come from XML.
- **The parameter vocabulary** (`params.dfy`, with `text.dfy`). Each `Param`
  constructor is modelled together with the formatting it uses:
  - `strconv.Itoa`;
  - `%02d` zero padding;
  - `strings.Join` with commas.

  A reference parser for decimal integers and a model of `strings.Split` show
  that the formatting loses nothing.
- **The legacy query builder** (`legacy_client.dfy`, with `query.dfy`). Its
  `EncodeUrl` takes a flat key, value, key, value list:
  - it refuses a list of odd length;
  - it adds each pair whose value is not empty;
  - it leaves out each pair whose value is empty.

  The requests `Caps`, `GetNzb`, `MovieSearch`, `Search` and `TvSearch` build
  those lists.
- **The Param-based query builder** (`client.dfy`). Its `EncodeUrl` adds every
  `Param`, including those with empty values. The searches append
  `extended=1`, the API key and the request type to the caller's list.

`url.Values` is a map from each key to the list of values added under it. Each
`EncodeUrl` is a method whose loop is proved against `Query.FromPairs`. That
function folds `Add` over the pairs, and its lemmas say what every key ends up
holding.

Two `encoding/json` behaviours shape the output:
- The `head` key is always written. Its field carries `omitempty`, but
  `encoding/json` never omits a struct value. A document without meta
  entries is therefore written with `"head": {}`.
- `file` has no `omitempty` and is nil when no `file` element was decoded. A
  document without files is therefore written with `"file": null`, not with
  an empty array.

## Model

| member | source | states |
|---|---|---|
| `Nzb.ToJson` | model/nzb.go:27-31 | The document object has exactly the keys `head` and `file`, in that order. `head` is always present and holds the Head's encoding. `file` is `null` exactly when the file slice is nil. |
| `Nzb.MarshalGroups` | model/nzb.go:83-90 | Copying the group names into a slice made with `make`, then marshalling it, gives the documented group array. That array is never `null`. |
| `Nzb.GroupsAreBareStrings` | model/nzb.go:86-89 | The Groups hook writes a bare array with one string per group, in order. Element i is group i's name, with no wrapper object and no `value` key. With no groups the array is `[]`. |
| `Nzb.SegmentsAreBareObjects` | model/nzb.go:93-95 | The Segments hook writes the Segment slice itself. It is `null` exactly when the slice is nil. Otherwise it is an array of the same length and order, element i being segment i's object. |
| `Nzb.SegmentKeys` | model/nzb.go:75-80 | A segment object always has exactly the keys `bytes`, `number` and `name`, and `name` holds the message id. |
| `Nzb.MetaKeys` | model/nzb.go:40-44 | A meta object has `type` only when the type is non-empty and `value` only when the value is non-empty. Each key is dropped independently. |
| `Nzb.HeadKeys` | model/nzb.go:34-37 | The head object has the key `meta` exactly when there is at least one Meta, and no key otherwise. |
| `Nzb.FileKeys` | model/nzb.go:47-54 | A file object always has `poster`, `date`, `subject`, `group` and `segment`, in that order. Groups are under `group` and segments under `segment`. |
| `Nzb.EmptyListsInJson` | model/nzb.go:84-85 | No groups, whether nil or allocated, gives `[]`. A nil segment slice gives `null`, and an allocated empty one gives `[]`. |
| `Nzb.MetaRoundTrip` | model/nzb.go:40-44 | Reading a Meta's JSON back gives the same Meta. |
| `Nzb.SegmentRoundTrip` | model/nzb.go:75-80 | Reading a Segment's JSON back gives the same Segment. |
| `Nzb.GroupsRoundTrip` | model/nzb.go:83-90 | Reading the bare group-name array back gives the same Groups, unless the slice was allocated and empty. |
| `Nzb.HeadRoundTrip` | model/nzb.go:34-37 | Reading the head object back gives the same Head, unless the meta slice was allocated and empty. |
| `Nzb.FileRoundTrip` | model/nzb.go:47-54 | Reading a file object back gives the same File, unless its group slice was allocated and empty. |
| `Nzb.JsonRoundTrip` | model/nzb.go:26-95 | Re-encoding loses nothing: for every normalized document, decoding its JSON gives the document back. |
| `Nzb.FromXml` | model/nzb.go:98-106 | Decoding fails exactly when the root is not `nzb`, and then reports the root's name. The files are the root's `file` children, in document order and count. The meta entries are the `meta` elements under the `head` elements, in document order and count, each with its `type` attribute and its text. Without a `head` element the Head is empty and its slice nil. Without a `file` element the file slice is nil. The result is always normalized. |
| `Nzb.NoFileIsNull` | model/nzb.go:30 | From XML to JSON, a document without `file` elements is written with `"file": null`, not an empty array. |
| `Nzb.HeadJsonFromXml` | model/nzb.go:29-37 | From XML to JSON, `head` is `{}` when the document has no `meta` element, including when it has no `head` at all. Otherwise it holds the meta entries in document order under `meta`. |
| `Nzb.Convert` | client/newznab.go:59-72 | The body's tree is decoded into `model.Nzb`, then written as JSON. The Param-based GetNzb (client.go:67-80) decodes into a package-level `Nzb` that is not part of this model; it is taken to carry the same tags. This fails exactly when decoding fails. The JSON reads back as the decoded document. |
| `Nzb.GroupArrayFromXml` | model/nzb.go:52-66 | From XML to JSON, file i's `group` array holds the text of each `group` element under its `groups` wrappers, one string each, in document order. |
| `Nzb.SegmentArrayFromXml` | model/nzb.go:69-80 | File i's `segment` value encodes the `segment` elements under its `segments` wrappers, in document order. It is `null` exactly when there is none. |
| `Nzb.ShortDocument` | nzb_test.go:26-39 | A short document has a head with one meta entry and two files, each with one group and one segment. It decodes to exactly that meta entry and those two files, in order, each keeping its one group and its one segment. |
| `Nzb.OneSegmentFileDecodes` | model/nzb.go:47-80 | Take a file element with one group and one segment. Its subject, group text and message id are arbitrary; its poster, date, bytes and number are fixed. Each value lands in the matching File field. |
| `Nzb.FileAttributesFromXml` | model/nzb.go:47-51 | From XML to JSON, for every file element, the `poster`, `date` and `subject` keys carry the element's attributes of the same names, or `""` when absent. |
| `Nzb.SegmentObjectsFromXml` | model/nzb.go:75-80 | From XML to JSON, for every file and every `segment` element under its `segments` wrappers, the k-th segment object is `bytes`, then `number` (the element's attributes of those names), then `name` (the element's text). |
| `Nzb.OneSegmentJson` | nzb_test.go:45-46 | Such a file's JSON holds the group name as a bare string and the segment as a bare `bytes`/`number`/`name` object. |
| `Text.ItoaRoundTrip` | param.go:97 | `strconv.Itoa` text reads back as the same integer. |
| `Text.ZeroPad2RoundTrip` | param.go:155 | `%02d` text reads back as the same integer. |
| `Text.ZeroPad2` | param.go:81 | `%02d` gives at least two characters, or the width of `Itoa(n)` when wider. It ends with `Itoa(n)` and is padded with zeros only. |
| `Text.SplitJoin` | param.go:73 | Joining pieces that contain no separator, then splitting, gives back the pieces. |
| `Params.Season` | param.go:152-157 | The key is `season`. The value is `S` followed by at least two characters that read back as the season. |
| `Params.Episode` | param.go:78-83 | The key is `episode`. The value is `E` followed by at least two characters that read back as the episode. |
| `Params.SeasonEpisodeTwoDigits` | param.go:155 | For 0 to 99, the value is the letter and exactly the two decimal digits. |
| `Params.SeasonFiveEpisodeThree` | param.go:152-157 | `Season(5)` is `S05` and `Episode(3)` is `E03`. |
| `Params.Categories` | param.go:64-75 | The loop fills one decimal text per category, in order, and the result is the `cat` param joining them with commas. Splitting that value on commas and parsing the pieces gives back the categories. |
| `Params.CategoryParam` | param.go:71-74 | The key is `cat`. The value is empty exactly when there are no categories. |
| `Params.CategoriesRoundTrip` | param.go:64-75 | Splitting the `cat` value on commas and parsing each piece gives back the categories, in input order. |
| `Params.DecimalParamsRoundTrip` | param.go:94-141 | `ImdbId`, `Limit`, `MaxAge` and `Offset` set their own key. Their value reads back as the argument. |
| `Params.TextParamsKeepValue` | param.go:32-197 | The text constructors `Album` … `Year` keep the argument unchanged, even when empty. Their key does not depend on it. |
| `Params.FormatParamsShareKey` | param.go:102-189 | `Json()` and `Xml()` both set `o`, with the values `json` and `xml`. |
| `Params.NamesDistinctButFormat` | param.go:26-197 | Across the 20 constructors, two keys coincide only for `Json` and `Xml`. |
| `Query.Add` | client/newznab.go:190 | `url.Values.Add` appends the value to its key's list and changes no other key. |
| `Query.FromPairsValues` | client.go:135-138 | After adding pairs one by one, each key holds exactly its values from the list, in list order. |
| `Query.FromPairsKeys` | client/newznab.go:185-192 | A key is present exactly when some pair carries it. A present key never has an empty list. |
| `Query.LookupAppend` | client/newznab.go:190 | Values under one key keep list order: those from an earlier part of the list come first. |
| `Query.LookupSingle` | client/newznab.go:186-192 | A key that only one pair carries gets exactly that pair's value. |
| `LegacyClient.EncodeUrl` | client/newznab.go:172-197 | An odd-length list is refused before anything else. An unparsable base URL is refused next. Otherwise the query is what adding each non-empty pair, in order, gives. |
| `LegacyClient.EncodedValues` | client/newznab.go:185-192 | Under each key the query holds that key's values from the flat list, in order, with empty ones left out. |
| `LegacyClient.EmptyValueLeavesNoTrace` | client/newznab.go:189-191 | A pair with an empty value leaves no trace. The query is the one the list without that pair gives. |
| `LegacyClient.NonEmptyValueAdded` | client/newznab.go:189-191 | A pair with a non-empty value is always added under its key. |
| `LegacyClient.AtMostHalf` | client/newznab.go:186-192 | The query holds at most `len(params)/2` values, and so does any one key. |
| `LegacyClient.DistinctKeysQuery` | client/newznab.go:186-192 | If no two pairs share a key, each key holds its own value, or nothing when that value is empty. No unlisted key appears, and no key is present with an empty list. |
| `LegacyClient.CategoryValueEmpty` | client/newznab.go:78-81 | `cat` is the comma-join of the categories. It is empty, and so dropped, only for no categories or a single empty one. |
| `LegacyClient.GetNzbPairs` | client/newznab.go:44-48 | The GetNzb list's keys `apikey`, `t`, `o` and `id` are all different. |
| `LegacyClient.TvSearchPairs` | client/newznab.go:126-140 | The 14 keys of the TvSearch list are all different. |
| `LegacyClient.Caps` | client/newznab.go:33-41 | The request fails only when the base URL does not parse. Otherwise the query is exactly `t=caps`, `o=json`. |
| `LegacyClient.GetNzb` | client/newznab.go:43-58 | The list has even length, so the only failure is an unparsable base. Each of `apikey`, `t=get`, `o=json` and `id` holds its own value. When the value is empty the key is absent. No other key appears. |
| `LegacyClient.MovieSearch` | client/newznab.go:76-95 | Same as GetNzb, for `apikey`, `t=movie`, `o=json`, `extended=1`, `q`, `cat` and `imdbid`. |
| `LegacyClient.Search` | client/newznab.go:98-117 | Same as GetNzb, for `apikey`, `t=search`, `o=json`, `extended=1`, `q` and `cat`. |
| `LegacyClient.TvSearch` | client/newznab.go:120-146 | Same as GetNzb, for the 14 keys from `apikey` to `tmdbid`. |
| `Client.EncodeUrl` | client.go:128-142 | An unparsable base is the only failure. Otherwise the query is what adding every param, in order, gives, including empty values. |
| `Client.EncodedValues` | client.go:135-138 | Each key holds the values of the params with that key, in order. A key is present exactly when some param has it. |
| `Client.EveryParamAdded` | client.go:136-137 | Every param's value is among its key's values, even when the value is empty. |
| `Client.SearchParams` | client.go:34 | A search's list is the caller's params unchanged, then `extended=1`, `apikey=<key>` and `t=<type>`. The other searches build it with the same `append` (client.go lines 85, 96, 107 and 118). `extended=1` is the private `extended()` param (client.go lines 169-174, modelled as `Client.Extended`). |
| `Client.SearchQuery` | client.go:34 | Under every key, a search's query holds the caller's values first, then the values the suffix adds. |
| `Client.BookSearch` | client.go:33-41 | Only an unparsable base fails. The query is the caller's query followed by the suffix with `t=book`. No key is present with an empty list. |
| `Client.GetCapabilities` | client.go:44-53 | Only an unparsable base fails. The query is exactly `t=caps`, with no API key. |
| `Client.GetNzb` | client.go:55-66 | Only an unparsable base fails. The query is exactly `apikey=<key>`, `id=<id>`, `t=get`, each once, even when empty. The `id` param is the private `nzbid()` (client.go lines 176-181, modelled as `Client.NzbId`). |
| `Client.MovieSearch` | client.go:84-92 | As BookSearch, with `t=movie`. |
| `Client.MusicSearch` | client.go:95-103 | As BookSearch, with `t=music`. |
| `Client.Search` | client.go:106-114 | As BookSearch, with `t=search`. |
| `Client.TvSearch` | client.go:117-125 | As BookSearch, with `t=tvsearch`. |

## Left out

- Both `Execute` functions are left out (client/newznab.go:149-169, client.go:145-165). They do the HTTP GET, check for status 200 and read the body. That is network I/O, so each request here ends with the URL it would fetch.
- The substitutable `Execute` variable is left out (client.go:28-30). It is process-wide mutable state that exists only for tests.
- Byte-level XML parsing and charset transcoding are left out: `xml.NewDecoder`, `charset.NewReaderLabel`, and `xml.Unmarshal` of the body in both GetNzb functions. They are library code. The model starts from the parsed element tree: name, attributes, direct character data and child elements. It also leaves out namespaces, `XMLName` checks below the root, and malformed XML. Both GetNzb functions call `xml.Unmarshal` without a `CharsetReader` (client.go:69, client/newznab.go:61). So a body that declares a non-UTF-8 encoding such as `iso-8859-1` fails there, although `fromXml` (model/nzb.go:103) decodes it. `Nzb.Convert` fails only when the root is not `nzb`, but that holds at the element-tree level only.
- `url.Parse` is not modelled. Its verdict on the base URL is the `baseParses` parameter.
- `url.Values.Encode` is not modelled: the sorting of keys and the percent-escaping into `RawQuery`. The query is kept as the multimap before encoding.
- A query string that the base URL already carries is not modelled. Both `EncodeUrl` functions assign `RawQuery` (client/newznab.go:195, client.go:140), which discards it. For example, `apikey=K` in `http://h/api?apikey=K` does not survive. `Url.base` therefore stands for the base URL without its own query, and the returned URL carries exactly the built `query`.
- `json.Marshal`'s text output is not modelled: spacing, escaping and the error path for unsupported values, which these all-string types cannot reach. JSON is a value tree.
- The debug `fmt.Println(u)` in the legacy `Search` is output only.
- category.go is not part of this model. It is a table of constants with no logic.
- main/main.go is not part of this model. It parses command-line flags and prints.
- The legacy request records (`model.Capabilities`, `model.Get`, `model.MovieSearch`, `model.Search`, `model.TvSearch`) are not part of this model. Their fields are taken as strings, because they are passed to a `...string` parameter. `Categories` is taken as a list of strings, because it is passed to `strings.Join`.
- `Nzb.JsonRoundTrip`: holds only for normalized documents. The JSON shape cannot tell an allocated empty Meta or Group slice from a nil one. Every document decoded from XML is normalized (`Nzb.FromXml`).
- `Text.ZeroPad2` and `Text.Itoa` model the decimal formatting of Go's 64-bit `int`. Arguments are restricted to that range by the `Params.Int` type.
