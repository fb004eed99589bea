/**
  The NZB document (model/nzb.go): the tree Nzb -> Head -> Meta and
  Nzb -> File -> Groups/Group and Segments/Segment, every leaf a string;
  how `encoding/xml` fills it from an element tree, driven by the struct tags;
  and how `encoding/json` writes it back out, driven by the json tags and the
  two MarshalJSON hooks that erase the `groups` and `segments` wrappers.
*/
module Nzb {
  import opened Wrappers
  import opened Json

  /** A Go slice as the encoders see it: nil, or allocated with some (possibly no) elements. */
  datatype Slice<T> = Nil | Alloc(elems: seq<T>) {
    function Elems(): seq<T> {
      if Nil? then [] else elems
    }
  }

  datatype Meta = Meta(typ: string, value: string)
  datatype Head = Head(meta: Slice<Meta>)
  datatype Group = Group(value: string)
  datatype Groups = Groups(group: Slice<Group>)
  datatype Segment = Segment(bytes: string, number: string, messageId: string)
  datatype Segments = Segments(segment: Slice<Segment>)
  datatype File = File(poster: string, date: string, subject: string, groups: Groups, segments: Segments)
  datatype Nzb = Nzb(head: Head, file: Slice<File>)

  function MapSeq<T, U>(xs: seq<T>, f: T -> U): (ys: seq<U>)
    ensures |ys| == |xs|
    ensures forall i :: 0 <= i < |xs| ==> ys[i] == f(xs[i])
  {
    seq(|xs|, i requires 0 <= i < |xs| => f(xs[i]))
  }

  // ---------------------------------------------------------------------------
  // Encoding as JSON

  /** How `encoding/json` writes a slice: nil as null, an allocated slice as an array. */
  function EncodeSlice<T>(s: Slice<T>, enc: T -> Json): Json
  {
    match s
    case Nil => Null
    case Alloc(xs) => Arr(MapSeq(xs, enc))
  }

  /** `type` and `value` both carry omitempty. */
  function MetaToJson(m: Meta): Json
  {
    Obj((if m.typ != "" then [("type", Str(m.typ))] else [])
      + (if m.value != "" then [("value", Str(m.value))] else []))
  }

  /** `meta` carries omitempty, so an empty or nil Meta slice leaves an empty object. */
  function HeadToJson(h: Head): Json
  {
    Obj(if |h.meta.Elems()| > 0 then [("meta", EncodeSlice(h.meta, MetaToJson))] else [])
  }

  /** A group as the Groups hook writes it: its name alone. */
  function GroupToJson(g: Group): Json
  {
    Str(g.value)
  }

  /** Groups.MarshalJSON: the slice of names is made with `make`, so it is never nil. */
  function GroupsToJson(g: Groups): Json
  {
    Arr(MapSeq(g.group.Elems(), GroupToJson))
  }

  /** Groups.MarshalJSON as written: each name is copied into a slice made with
      `make`, which is then marshalled as an array of strings. */
  method MarshalGroups(g: Groups) returns (j: Json)
    ensures j == GroupsToJson(g)
  {
    var groups := g.group.Elems();
    var groupVals := new string[|groups|];
    for i := 0 to |groups|
      invariant forall k :: 0 <= k < i ==> groupVals[k] == groups[k].value
    {
      groupVals[i] := groups[i].value;
    }
    j := Arr(MapSeq(groupVals[..], s => Str(s)));
  }

  /** `name` is the key of the message id, the element's character data. */
  function SegmentToJson(s: Segment): Json
  {
    Obj([("bytes", Str(s.bytes)), ("number", Str(s.number)), ("name", Str(s.messageId))])
  }

  /** Segments.MarshalJSON: the Segment slice itself, so a nil slice is null. */
  function SegmentsToJson(s: Segments): Json
  {
    EncodeSlice(s.segment, SegmentToJson)
  }

  function FileToJson(f: File): Json
  {
    Obj([("poster", Str(f.poster)), ("date", Str(f.date)), ("subject", Str(f.subject)),
         ("group", GroupsToJson(f.groups)), ("segment", SegmentsToJson(f.segments))])
  }

  /** `json.Marshal(nzb)`. `head` is a struct value, which omitempty never omits. */
  function ToJson(n: Nzb): (j: Json)
    ensures Keys(j) == ["head", "file"]
    ensures Field(j, "head") == Some(HeadToJson(n.head))
    ensures n.file.Nil? <==> Field(j, "file") == Some(Null)
  {
    var members := [("head", HeadToJson(n.head)), ("file", EncodeSlice(n.file, FileToJson))];
    FindMemberAt(members, "head", 0);
    FindMemberAt(members, "file", 1);
    Obj(members)
  }

  lemma GroupsAreBareStrings(g: Groups)
    ensures GroupsToJson(g).Arr?
    ensures |GroupsToJson(g).items| == |g.group.Elems()|
    ensures forall i :: 0 <= i < |g.group.Elems()| ==> GroupsToJson(g).items[i] == Str(g.group.Elems()[i].value)
    ensures g.group.Elems() == [] ==> GroupsToJson(g) == Arr([])
  {
  }

  lemma SegmentsAreBareObjects(s: Segments)
    ensures s.segment.Nil? <==> SegmentsToJson(s) == Null
    ensures s.segment.Alloc? ==> SegmentsToJson(s).Arr? && |SegmentsToJson(s).items| == |s.segment.elems|
    ensures s.segment.Alloc? ==> forall i :: 0 <= i < |s.segment.elems| ==>
      SegmentsToJson(s).items[i] == SegmentToJson(s.segment.elems[i])
  {
  }

  lemma SegmentKeys(s: Segment)
    ensures Keys(SegmentToJson(s)) == ["bytes", "number", "name"]
    ensures Field(SegmentToJson(s), "name") == Some(Str(s.messageId))
  {
    FindMemberAt(SegmentToJson(s).members, "name", 2);
  }

  lemma MetaKeys(m: Meta)
    ensures Keys(MetaToJson(m)) == (if m.typ != "" then ["type"] else []) + (if m.value != "" then ["value"] else [])
    ensures Field(MetaToJson(m), "type") == if m.typ != "" then Some(Str(m.typ)) else None
    ensures Field(MetaToJson(m), "value") == if m.value != "" then Some(Str(m.value)) else None
  {
    var members := MetaToJson(m).members;
    if m.typ != "" {
      FindMemberAt(members, "type", 0);
    } else {
      FindMemberAbsent(members, "type");
    }
    if m.value != "" {
      FindMemberAt(members, "value", |members| - 1);
    } else {
      FindMemberAbsent(members, "value");
    }
  }

  lemma HeadKeys(h: Head)
    ensures Keys(HeadToJson(h)) == if h.meta.Elems() != [] then ["meta"] else []
  {
  }

  lemma FileKeys(f: File)
    ensures Keys(FileToJson(f)) == ["poster", "date", "subject", "group", "segment"]
    ensures Field(FileToJson(f), "group") == Some(GroupsToJson(f.groups))
    ensures Field(FileToJson(f), "segment") == Some(SegmentsToJson(f.segments))
  {
    FindMemberAt(FileToJson(f).members, "group", 3);
    FindMemberAt(FileToJson(f).members, "segment", 4);
  }

  /** The Groups hook cannot tell a nil list from an allocated empty one; the Segment slice can. */
  lemma EmptyListsInJson()
    ensures GroupsToJson(Groups(Nil)) == GroupsToJson(Groups(Alloc([]))) == Arr([])
    ensures SegmentsToJson(Segments(Nil)) == Null
    ensures SegmentsToJson(Segments(Alloc([]))) == Arr([])
  {
  }

  // ---------------------------------------------------------------------------
  // Reading the JSON shape back

  /** A string member under omitempty: an absent member reads as "". */
  function OptionalStr(j: Json, key: string): Option<string>
  {
    match Field(j, key)
    case None => Some("")
    case Some(Str(s)) => Some(s)
    case Some(_) => None
  }

  function RequiredStr(j: Json, key: string): Option<string>
  {
    match Field(j, key)
    case Some(Str(s)) => Some(s)
    case _ => None
  }

  function DecodeAll<T>(xs: seq<Json>, dec: Json -> Option<T>): Option<seq<T>>
  {
    if xs == [] then Some([])
    else
      var x :- dec(xs[0]);
      var rest :- DecodeAll(xs[1..], dec);
      Some([x] + rest)
  }

  function DecodeSlice<T>(j: Json, dec: Json -> Option<T>): Option<Slice<T>>
  {
    match j
    case Null => Some(Nil)
    case Arr(xs) => var ys :- DecodeAll(xs, dec); Some(Alloc(ys))
    case _ => None
  }

  function MetaFromJson(j: Json): Option<Meta>
  {
    if !j.Obj? then None
    else
      var t :- OptionalStr(j, "type");
      var v :- OptionalStr(j, "value");
      Some(Meta(t, v))
  }

  function HeadFromJson(j: Json): Option<Head>
  {
    if !j.Obj? then None
    else
      match Field(j, "meta")
      case None => Some(Head(Nil))
      case Some(m) => var ms :- DecodeSlice(m, MetaFromJson); Some(Head(ms))
  }

  function GroupFromJson(j: Json): Option<Group>
  {
    match j
    case Str(s) => Some(Group(s))
    case _ => None
  }

  /** The bare array of names; an empty array reads as no groups at all. */
  function GroupsFromJson(j: Json): Option<Groups>
  {
    match j
    case Arr(xs) =>
      var gs :- DecodeAll(xs, GroupFromJson);
      Some(Groups(if gs == [] then Nil else Alloc(gs)))
    case _ => None
  }

  function SegmentFromJson(j: Json): Option<Segment>
  {
    if !j.Obj? then None
    else
      var b :- RequiredStr(j, "bytes");
      var n :- RequiredStr(j, "number");
      var id :- RequiredStr(j, "name");
      Some(Segment(b, n, id))
  }

  function SegmentsFromJson(j: Json): Option<Segments>
  {
    var s :- DecodeSlice(j, SegmentFromJson);
    Some(Segments(s))
  }

  function FileFromJson(j: Json): Option<File>
  {
    if !j.Obj? then None
    else
      var poster :- RequiredStr(j, "poster");
      var date :- RequiredStr(j, "date");
      var subject :- RequiredStr(j, "subject");
      var gj :- Field(j, "group");
      var groups :- GroupsFromJson(gj);
      var sj :- Field(j, "segment");
      var segments :- SegmentsFromJson(sj);
      Some(File(poster, date, subject, groups, segments))
  }

  /** Reads a document back from the JSON shape that ToJson writes. */
  function FromJson(j: Json): Option<Nzb>
  {
    if !j.Obj? then None
    else
      var hj :- Field(j, "head");
      var head :- HeadFromJson(hj);
      var fj :- Field(j, "file");
      var files :- DecodeSlice(fj, FileFromJson);
      Some(Nzb(head, files))
  }

  /** The documents JSON can carry without loss: the two lists whose emptiness
      the JSON shape hides (Meta under omitempty, Group under the `make` hook)
      are nil whenever they are empty. */
  predicate Normalized(n: Nzb)
  {
    && n.head.meta != Alloc([])
    && forall f :: f in n.file.Elems() ==> f.groups.group != Alloc([])
  }

  lemma {:induction false} DecodeAllMapSeq<T>(xs: seq<T>, enc: T -> Json, dec: Json -> Option<T>)
    requires forall i :: 0 <= i < |xs| ==> dec(enc(xs[i])) == Some(xs[i])
    ensures DecodeAll(MapSeq(xs, enc), dec) == Some(xs)
  {
    if xs != [] {
      assert MapSeq(xs, enc)[1..] == MapSeq(xs[1..], enc);
      DecodeAllMapSeq(xs[1..], enc, dec);
      assert [xs[0]] + xs[1..] == xs;
    }
  }

  lemma DecodeSliceEncodeSlice<T>(s: Slice<T>, enc: T -> Json, dec: Json -> Option<T>)
    requires forall x :: x in s.Elems() ==> dec(enc(x)) == Some(x)
    ensures DecodeSlice(EncodeSlice(s, enc), dec) == Some(s)
  {
    if s.Alloc? {
      DecodeAllMapSeq(s.elems, enc, dec);
    }
  }

  lemma MetaRoundTrip(m: Meta)
    ensures MetaFromJson(MetaToJson(m)) == Some(m)
  {
    MetaKeys(m);
  }

  lemma SegmentRoundTrip(s: Segment)
    ensures SegmentFromJson(SegmentToJson(s)) == Some(s)
  {
    var j := SegmentToJson(s);
    FindMemberAt(j.members, "bytes", 0);
    FindMemberAt(j.members, "number", 1);
    FindMemberAt(j.members, "name", 2);
  }

  lemma GroupsRoundTrip(g: Groups)
    requires g.group != Alloc([])
    ensures GroupsFromJson(GroupsToJson(g)) == Some(g)
  {
    DecodeAllMapSeq(g.group.Elems(), GroupToJson, GroupFromJson);
  }

  lemma HeadRoundTrip(h: Head)
    requires h.meta != Alloc([])
    ensures HeadFromJson(HeadToJson(h)) == Some(h)
  {
    forall m | m in h.meta.Elems() ensures MetaFromJson(MetaToJson(m)) == Some(m) {
      MetaRoundTrip(m);
    }
    DecodeSliceEncodeSlice(h.meta, MetaToJson, MetaFromJson);
  }

  lemma FileRoundTrip(f: File)
    requires f.groups.group != Alloc([])
    ensures FileFromJson(FileToJson(f)) == Some(f)
  {
    var j := FileToJson(f);
    FindMemberAt(j.members, "poster", 0);
    FindMemberAt(j.members, "date", 1);
    FindMemberAt(j.members, "subject", 2);
    FindMemberAt(j.members, "group", 3);
    FindMemberAt(j.members, "segment", 4);
    GroupsRoundTrip(f.groups);
    forall s | s in f.segments.segment.Elems() ensures SegmentFromJson(SegmentToJson(s)) == Some(s) {
      SegmentRoundTrip(s);
    }
    DecodeSliceEncodeSlice(f.segments.segment, SegmentToJson, SegmentFromJson);
  }

  /** Re-encoding as JSON erases the wrappers but loses nothing of a normalized document. */
  lemma JsonRoundTrip(n: Nzb)
    requires Normalized(n)
    ensures FromJson(ToJson(n)) == Some(n)
  {
    var j := ToJson(n);
    FindMemberAt(j.members, "head", 0);
    FindMemberAt(j.members, "file", 1);
    HeadRoundTrip(n.head);
    forall f | f in n.file.Elems() ensures FileFromJson(FileToJson(f)) == Some(f) {
      FileRoundTrip(f);
    }
    DecodeSliceEncodeSlice(n.file, FileToJson, FileFromJson);
  }

  // ---------------------------------------------------------------------------
  // Decoding from an XML element tree

  datatype Attr = Attr(name: string, value: string)

  /** An element after parsing: its name, its attributes in order, the character
      data directly inside it, and its child elements in order. */
  datatype Element = Element(name: string, attrs: seq<Attr>, text: string, children: seq<Element>)

  datatype DecodeError = UnexpectedRoot(found: string)

  /** The value of attribute `name`; "" when absent. Each matching attribute is
      assigned in turn, so the last one wins. */
  function AttrValue(attrs: seq<Attr>, name: string): string
  {
    if attrs == [] then ""
    else if attrs[|attrs| - 1].name == name then attrs[|attrs| - 1].value
    else AttrValue(attrs[..|attrs| - 1], name)
  }

  /** The elements called `name`, in document order; others are skipped. */
  function Named(elems: seq<Element>, name: string): seq<Element>
  {
    if elems == [] then []
    else (if elems[0].name == name then [elems[0]] else []) + Named(elems[1..], name)
  }

  /** The `name` children of every wrapper in turn. A repeated wrapper element
      decodes into the same struct field again, and the slice inside it appends. */
  function NamedIn(wrappers: seq<Element>, name: string): seq<Element>
  {
    if wrappers == [] then []
    else Named(wrappers[0].children, name) + NamedIn(wrappers[1..], name)
  }

  /** The slice that repeated `append`s build from nil. */
  function Collect<T>(xs: seq<T>): (s: Slice<T>)
    ensures s.Elems() == xs
    ensures s != Alloc([])
  {
    if xs == [] then Nil else Alloc(xs)
  }

  function MetaFromXml(e: Element): Meta
  {
    Meta(AttrValue(e.attrs, "type"), e.text)
  }

  function GroupFromXml(e: Element): Group
  {
    Group(e.text)
  }

  function SegmentFromXml(e: Element): Segment
  {
    Segment(AttrValue(e.attrs, "bytes"), AttrValue(e.attrs, "number"), e.text)
  }

  function FileFromXml(e: Element): File
  {
    var groups := NamedIn(Named(e.children, "groups"), "group");
    var segments := NamedIn(Named(e.children, "segments"), "segment");
    File(AttrValue(e.attrs, "poster"), AttrValue(e.attrs, "date"), AttrValue(e.attrs, "subject"),
         Groups(Collect(MapSeq(groups, GroupFromXml))),
         Segments(Collect(MapSeq(segments, SegmentFromXml))))
  }

  /** `xml.Unmarshal` into an Nzb: the root must be `nzb`; an absent `head` leaves an empty Head. */
  function FromXml(root: Element): (r: Result<Nzb, DecodeError>)
    ensures r.Failure? <==> root.name != "nzb"
    ensures r.Failure? ==> r.error == UnexpectedRoot(root.name)
    ensures r.Success? ==> |r.value.file.Elems()| == |Named(root.children, "file")|
    ensures r.Success? ==> forall i :: 0 <= i < |r.value.file.Elems()| ==>
      r.value.file.Elems()[i] == FileFromXml(Named(root.children, "file")[i])
    ensures r.Success? ==> Normalized(r.value)
    ensures r.Success? ==> var ms := NamedIn(Named(root.children, "head"), "meta");
      && |r.value.head.meta.Elems()| == |ms|
      && forall k :: 0 <= k < |ms| ==> r.value.head.meta.Elems()[k] == Meta(AttrValue(ms[k].attrs, "type"), ms[k].text)
    ensures r.Success? && Named(root.children, "head") == [] ==> r.value.head == Head(Nil)
    ensures r.Success? && Named(root.children, "file") == [] ==> r.value.file == Nil
  {
    if root.name != "nzb" then Failure(UnexpectedRoot(root.name))
    else
      var head := Head(Collect(MapSeq(NamedIn(Named(root.children, "head"), "meta"), MetaFromXml)));
      var files := Collect(MapSeq(Named(root.children, "file"), FileFromXml));
      Success(Nzb(head, files))
  }

  /** `xml.Unmarshal` followed by `json.Marshal`, as the legacy GetNzb does with the body
      into `model.Nzb`. The Param-based GetNzb does the same into a package-level
      `Nzb`, which is taken to carry the same tags. */
  function Convert(root: Element): (r: Result<Json, DecodeError>)
    ensures r.Failure? <==> root.name != "nzb"
    ensures r.Success? ==> FromJson(r.value) == Some(FromXml(root).value)
  {
    var nzb :- FromXml(root);
    JsonRoundTrip(nzb);
    Success(ToJson(nzb))
  }

  /** The head seen end to end: an empty object when the document has no `meta`
      element (no `head` at all included), otherwise the meta entries in document order. */
  lemma HeadJsonFromXml(root: Element)
    requires root.name == "nzb"
    ensures var ms := NamedIn(Named(root.children, "head"), "meta");
      var head := Field(ToJson(FromXml(root).value), "head");
      && (ms == [] ==> head == Some(Obj([])))
      && (ms != [] ==> head == Some(Obj([("meta", Arr(MapSeq(MapSeq(ms, MetaFromXml), MetaToJson)))])))
  {
  }

  /** A document without `file` elements keeps a nil file slice, which
      `encoding/json` writes as null: the `file` key carries no array. */
  lemma NoFileIsNull(root: Element)
    requires root.name == "nzb" && Named(root.children, "file") == []
    ensures Field(ToJson(FromXml(root).value), "file") == Some(Null)
  {
  }

  /** The flattening seen end to end: the `group` array of the i-th file holds
      the text of its `group` elements, one string each, in document order. */
  lemma GroupArrayFromXml(root: Element, i: nat)
    requires root.name == "nzb" && i < |Named(root.children, "file")|
    ensures var fileElem := Named(root.children, "file")[i];
      var groupElems := NamedIn(Named(fileElem.children, "groups"), "group");
      var group := Field(FileToJson(FromXml(root).value.file.Elems()[i]), "group");
      && group.Some? && group.value.Arr?
      && |group.value.items| == |groupElems|
      && forall k :: 0 <= k < |groupElems| ==> group.value.items[k] == Str(groupElems[k].text)
  {
    var f := FromXml(root).value.file.Elems()[i];
    FileKeys(f);
  }

  /** The same for segments: one object per `segment` element, in document order,
      with its message id under `name`. */
  lemma SegmentArrayFromXml(root: Element, i: nat)
    requires root.name == "nzb" && i < |Named(root.children, "file")|
    ensures var fileElem := Named(root.children, "file")[i];
      var segmentElems := NamedIn(Named(fileElem.children, "segments"), "segment");
      var fileJson := FileToJson(FromXml(root).value.file.Elems()[i]);
      Field(fileJson, "segment") == Some(EncodeSlice(Collect(MapSeq(segmentElems, SegmentFromXml)), SegmentToJson))
      && (segmentElems == [] <==> Field(fileJson, "segment") == Some(Null))
  {
    var f := FromXml(root).value.file.Elems()[i];
    FileKeys(f);
  }
  /** Segment k of file i, end to end: the object carries the `bytes` and `number`
      attributes of the k-th `segment` element under its key of the same name,
      and the element's text under `name`. */
  lemma SegmentObjectsFromXml(root: Element, i: nat, k: nat)
    requires root.name == "nzb" && i < |Named(root.children, "file")|
    requires k < |NamedIn(Named(Named(root.children, "file")[i].children, "segments"), "segment")|
    ensures var e := NamedIn(Named(Named(root.children, "file")[i].children, "segments"), "segment")[k];
      var segment := Field(FileToJson(FromXml(root).value.file.Elems()[i]), "segment");
      && segment.Some? && segment.value.Arr? && k < |segment.value.items|
      && segment.value.items[k]
         == Obj([("bytes", Str(AttrValue(e.attrs, "bytes"))), ("number", Str(AttrValue(e.attrs, "number"))), ("name", Str(e.text))])
  {
    SegmentArrayFromXml(root, i);
  }

  /** The attributes of file i, end to end: `poster`, `date` and `subject` carry
      the element's attributes of the same names ("" when absent). */
  lemma FileAttributesFromXml(root: Element, i: nat)
    requires root.name == "nzb" && i < |Named(root.children, "file")|
    ensures var e := Named(root.children, "file")[i];
      var fileJson := FileToJson(FromXml(root).value.file.Elems()[i]);
      && Field(fileJson, "poster") == Some(Str(AttrValue(e.attrs, "poster")))
      && Field(fileJson, "date") == Some(Str(AttrValue(e.attrs, "date")))
      && Field(fileJson, "subject") == Some(Str(AttrValue(e.attrs, "subject")))
  {
    var f := FromXml(root).value.file.Elems()[i];
    var members := FileToJson(f).members;
    FindMemberAt(members, "poster", 0);
    FindMemberAt(members, "date", 1);
    FindMemberAt(members, "subject", 2);
  }

  /** A file element with one group and one segment, the shape of each file in a short NZB. */
  function OneSegmentFile(subject: string, group: string, messageId: string): Element
  {
    Element("file", [Attr("poster", "poster@example.com"), Attr("date", "1609459200"), Attr("subject", subject)], "",
      [Element("groups", [], "", [Element("group", [], group, [])]),
       Element("segments", [], "", [Element("segment", [Attr("bytes", "1024"), Attr("number", "1")], messageId, [])])])
  }

  /** The File that `OneSegmentFile` decodes to. */
  function OneSegment(subject: string, group: string, messageId: string): File
  {
    File("poster@example.com", "1609459200", subject,
         Groups(Alloc([Group(group)])), Segments(Alloc([Segment("1024", "1", messageId)])))
  }

  lemma OneSegmentFileDecodes(subject: string, group: string, messageId: string)
    ensures FileFromXml(OneSegmentFile(subject, group, messageId)) == OneSegment(subject, group, messageId)
  {
    var f := OneSegmentFile(subject, group, messageId);
    var g, s := f.children[0], f.children[1];
    assert f.attrs[..2][..1] == f.attrs[..1];
    assert AttrValue(f.attrs[..1], "poster") == "poster@example.com";
    assert AttrValue(f.attrs[..2], "poster") == "poster@example.com";
    assert AttrValue(f.attrs, "poster") == "poster@example.com";
    assert AttrValue(f.attrs[..2], "date") == "1609459200";
    assert s.children[0].attrs[..1] == [Attr("bytes", "1024")];
    assert AttrValue(s.children[0].attrs[..1], "bytes") == "1024";
    assert Named(f.children[1..], "groups") == [];
    assert Named(f.children, "groups") == [g];
    assert Named(g.children[1..], "group") == [];
    assert NamedIn([g], "group") == g.children;
    assert Named(f.children[1..], "segments") == [s];
    assert Named(f.children, "segments") == [s];
    assert Named(s.children[1..], "segment") == [];
    assert NamedIn([s], "segment") == s.children;
  }

  /** In JSON such a file carries its group name and its segment bare. */
  lemma OneSegmentJson(subject: string, group: string, messageId: string)
    ensures Field(FileToJson(OneSegment(subject, group, messageId)), "group") == Some(Arr([Str(group)]))
    ensures Field(FileToJson(OneSegment(subject, group, messageId)), "segment")
      == Some(Arr([Obj([("bytes", Str("1024")), ("number", Str("1")), ("name", Str(messageId))])]))
  {
    var seg := Segment("1024", "1", messageId);
    assert MapSeq([seg], SegmentToJson) == [SegmentToJson(seg)];
    assert MapSeq([Group(group)], GroupToJson) == [Str(group)];
    FileKeys(OneSegment(subject, group, messageId));
  }

  /** A short document: a head with one meta entry, then two one-segment files. */
  function ShortSample(title: string, group: string, id1: string, id2: string): Element
  {
    Element("nzb", [], "",
      [Element("head", [], "", [Element("meta", [Attr("type", "title")], title, [])]),
       OneSegmentFile("a.rar", group, id1),
       OneSegmentFile("b.rar", group, id2)])
  }

  lemma ShortSampleFiles(title: string, group: string, id1: string, id2: string)
    ensures Named(ShortSample(title, group, id1, id2).children, "file") == ShortSample(title, group, id1, id2).children[1..]
  {
    var children := ShortSample(title, group, id1, id2).children;
    assert Named(children[2..][1..], "file") == [];
    assert Named(children[2..], "file") == children[2..];
    assert children[1..][1..] == children[2..];
  }

  lemma ShortSampleHead(title: string, group: string, id1: string, id2: string)
    ensures NamedIn(Named(ShortSample(title, group, id1, id2).children, "head"), "meta")
      == [Element("meta", [Attr("type", "title")], title, [])]
  {
    var children := ShortSample(title, group, id1, id2).children;
    var head := children[0];
    assert Named(children[2..][1..], "head") == [];
    assert Named(children[2..], "head") == [];
    assert children[1..][1..] == children[2..];
    assert Named(children[1..], "head") == [];
    assert Named(children, "head") == [head];
    assert Named(head.children[1..], "meta") == [];
  }

  /** Decoding the short document gives its meta entry and the two files, in order,
      each holding its one group and its one segment. */
  lemma ShortDocument(title: string, group: string, id1: string, id2: string)
    ensures FromXml(ShortSample(title, group, id1, id2))
      == Success(Nzb(Head(Alloc([Meta("title", title)])),
                     Alloc([OneSegment("a.rar", group, id1), OneSegment("b.rar", group, id2)])))
  {
    var root := ShortSample(title, group, id1, id2);
    ShortSampleFiles(title, group, id1, id2);
    ShortSampleHead(title, group, id1, id2);
    OneSegmentFileDecodes("a.rar", group, id1);
    OneSegmentFileDecodes("b.rar", group, id2);
    var files := [OneSegmentFile("a.rar", group, id1), OneSegmentFile("b.rar", group, id2)];
    assert root.children[1..] == files;
    assert MapSeq(files, FileFromXml) == [OneSegment("a.rar", group, id1), OneSegment("b.rar", group, id2)];
    var meta := [Element("meta", [Attr("type", "title")], title, [])];
    assert AttrValue(meta[0].attrs, "type") == "title";
    assert MapSeq(meta, MetaFromXml) == [Meta("title", title)];
  }
}
