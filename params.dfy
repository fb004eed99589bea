/**
  The parameter vocabulary of the Param-based client (param.go): each
  constructor pairs a fixed query key with a value, formatted from the
  argument where the argument is a number.
*/
module Params {
  import opened Wrappers
  import Text

  /** Go's `int` on the 64-bit platforms the client is built for. */
  type Int = x: int | -0x8000_0000_0000_0000 <= x < 0x8000_0000_0000_0000

  /** One query parameter: the key and the value to add under it. */
  datatype Param = Param(name: string, value: string)

  // ---------------------------------------------------------------------------
  // Constructors whose value is the argument itself

  function Album(a: string): Param { Param("album", a) }
  function Apikey(k: string): Param { Param("apikey", k) }
  function Artist(a: string): Param { Param("artist", a) }
  function Author(a: string): Param { Param("author", a) }
  function Genre(g: string): Param { Param("genre", g) }
  function Label(l: string): Param { Param("label", l) }
  function Query(q: string): Param { Param("q", q) }
  function Title(t: string): Param { Param("title", t) }
  function Track(t: string): Param { Param("track", t) }
  function Type(t: string): Param { Param("t", t) }
  function Year(y: string): Param { Param("year", y) }

  /** The output format: both constructors set the same key, so the last one added wins on the server. */
  function Json(): Param { Param("o", "json") }
  function Xml(): Param { Param("o", "xml") }

  // ---------------------------------------------------------------------------
  // Constructors that format a number

  function ImdbId(i: Int): Param { Param("imdbid", Text.Itoa(i)) }
  function Limit(l: Int): Param { Param("limit", Text.Itoa(l)) }
  function MaxAge(m: Int): Param { Param("maxage", Text.Itoa(m)) }
  function Offset(o: Int): Param { Param("offset", Text.Itoa(o)) }

  /** `Season(s)`: "S" and the season number, zero-padded to two digits. */
  function Season(s: Int): (p: Param)
    ensures p.name == "season" && |p.value| >= 3 && p.value[0] == 'S'
    ensures Text.ParseInt(p.value[1..]) == Some(s as int)
  {
    var r := Param("season", "S" + Text.ZeroPad2(s));
    assert r.value[1..] == Text.ZeroPad2(s);
    Text.ZeroPad2RoundTrip(s);
    r
  }

  /** `Episode(e)`: "E" and the episode number, zero-padded to two digits. */
  function Episode(e: Int): (p: Param)
    ensures p.name == "episode" && |p.value| >= 3 && p.value[0] == 'E'
    ensures Text.ParseInt(p.value[1..]) == Some(e as int)
  {
    var r := Param("episode", "E" + Text.ZeroPad2(e));
    assert r.value[1..] == Text.ZeroPad2(e);
    Text.ZeroPad2RoundTrip(e);
    r
  }

  /** The decimal texts of the categories, in order. */
  function CategoryTexts(cats: seq<Int>): (texts: seq<string>)
    ensures |texts| == |cats|
    ensures forall i :: 0 <= i < |cats| ==> texts[i] == Text.Itoa(cats[i])
  {
    seq(|cats|, i requires 0 <= i < |cats| => Text.Itoa(cats[i]))
  }

  /** The `cat` param for some categories: their decimal texts joined by commas. */
  function CategoryParam(cats: seq<Int>): (p: Param)
    ensures p.name == "cat"
    ensures cats == [] <==> p.value == ""
  {
    Text.JoinStartsWithFirst(CategoryTexts(cats), ',');
    Param("cat", Text.Join(CategoryTexts(cats), ','))
  }

  // ---------------------------------------------------------------------------
  // Reading values back

  /** Parses every piece as a decimal integer; fails if any piece is not one. */
  function ParseAll(pieces: seq<string>): Option<seq<int>>
  {
    if pieces == [] then Some([])
    else
      var first :- Text.ParseInt(pieces[0]);
      var rest :- ParseAll(pieces[1..]);
      Some([first] + rest)
  }

  /** Reads a `cat` value: no categories for "", otherwise comma-separated decimal integers. */
  function ParseCategories(value: string): Option<seq<int>>
  {
    if value == "" then Some([]) else ParseAll(Text.Split(value, ','))
  }

  /** A decimal text never contains the comma that separates categories. */
  lemma ItoaHasNoComma(n: int)
    ensures ',' !in Text.Itoa(n)
  {
    var s := Text.Itoa(n);
    forall i | 0 <= i < |s| ensures s[i] != ',' {
      if n < 0 && i > 0 {
        assert s[i] == s[1..][i - 1];
      }
    }
  }

  lemma {:induction false} ParseAllItoa(cats: seq<Int>)
    ensures ParseAll(CategoryTexts(cats)) == Some(cats)
  {
    if cats != [] {
      var texts := CategoryTexts(cats);
      Text.ItoaRoundTrip(cats[0]);
      assert texts[1..] == CategoryTexts(cats[1..]);
      ParseAllItoa(cats[1..]);
      assert cats == [cats[0]] + cats[1..];
    }
  }

  /** The `cat` value loses nothing: reading it back gives the categories, in order. */
  lemma CategoriesRoundTrip(cats: seq<Int>)
    ensures ParseCategories(CategoryParam(cats).value) == Some(cats)
  {
    if cats != [] {
      var texts := CategoryTexts(cats);
      forall i | 0 <= i < |texts| ensures ',' !in texts[i] {
        ItoaHasNoComma(cats[i]);
      }
      Text.SplitJoin(texts, ',');
      ParseAllItoa(cats);
    }
  }

  /** `Categories(cats...)`: converts each category in turn into a slice made for
      them, then joins the slice with commas. The value reads back as the categories. */
  method Categories(cats: seq<Int>) returns (p: Param)
    ensures p == CategoryParam(cats)
    ensures p.name == "cat" && ParseCategories(p.value) == Some(cats)
  {
    var c := new string[|cats|];
    for i := 0 to |cats|
      invariant forall j :: 0 <= j < i ==> c[j] == Text.Itoa(cats[j])
    {
      c[i] := Text.Itoa(cats[i]);
    }
    assert c[..] == CategoryTexts(cats);
    CategoriesRoundTrip(cats);
    p := Param("cat", Text.Join(c[..], ','));
  }

  /** For seasons and episodes 0 to 99 the value is the letter and exactly two digits. */
  lemma SeasonEpisodeTwoDigits(n: Int)
    requires 0 <= n < 100
    ensures Season(n).value == ['S', Text.DigitChar(n / 10), Text.DigitChar(n % 10)]
    ensures Episode(n).value == ['E', Text.DigitChar(n / 10), Text.DigitChar(n % 10)]
  {
    Text.ZeroPad2TwoDigits(n);
  }

  lemma SeasonFiveEpisodeThree()
    ensures Season(5).value == "S05" && Episode(3).value == "E03"
  {
    SeasonEpisodeTwoDigits(5);
    SeasonEpisodeTwoDigits(3);
  }

  /** The number constructors lose nothing: their value reads back as the argument. */
  lemma DecimalParamsRoundTrip(n: Int)
    ensures ImdbId(n).name == "imdbid" && Text.ParseInt(ImdbId(n).value) == Some(n as int)
    ensures Limit(n).name == "limit" && Text.ParseInt(Limit(n).value) == Some(n as int)
    ensures MaxAge(n).name == "maxage" && Text.ParseInt(MaxAge(n).value) == Some(n as int)
    ensures Offset(n).name == "offset" && Text.ParseInt(Offset(n).value) == Some(n as int)
  {
    Text.ItoaRoundTrip(n);
  }

  /** The whole vocabulary: the keys each constructor sets. Only `Json` and `Xml` share one. */
  function Names(): (names: seq<string>)
    ensures |names| == 20
  {
    [Album("").name, Apikey("").name, Artist("").name, Author("").name, CategoryParam([]).name,
     Episode(0).name, Genre("").name, ImdbId(0).name, Label("").name, Limit(0).name,
     MaxAge(0).name, Offset(0).name, Query("").name, Season(0).name, Title("").name,
     Track("").name, Type("").name, Year("").name, Json().name, Xml().name]
  }

  lemma NamesDistinctButFormat()
    ensures forall i, j :: 0 <= i < j < |Names()| ==> (Names()[i] == Names()[j] <==> i == 18 && j == 19)
  {
  }

  /** The text constructors keep their argument as it is, empty or not, and their key does not depend on it. */
  lemma TextParamsKeepValue(s: string, s': string)
    ensures Album(s).value == s && Album(s).name == Album(s').name
    ensures Apikey(s).value == s && Apikey(s).name == Apikey(s').name
    ensures Artist(s).value == s && Artist(s).name == Artist(s').name
    ensures Author(s).value == s && Author(s).name == Author(s').name
    ensures Genre(s).value == s && Genre(s).name == Genre(s').name
    ensures Label(s).value == s && Label(s).name == Label(s').name
    ensures Query(s).value == s && Query(s).name == Query(s').name
    ensures Title(s).value == s && Title(s).name == Title(s').name
    ensures Track(s).value == s && Track(s).name == Track(s').name
    ensures Type(s).value == s && Type(s).name == Type(s').name
    ensures Year(s).value == s && Year(s).name == Year(s').name
  {
  }

  lemma FormatParamsShareKey()
    ensures Json().name == Xml().name == "o"
    ensures Json().value == "json" && Xml().value == "xml"
  {
  }
}
