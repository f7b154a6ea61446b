/**
 * The fixed lookup tables of the catalogue (app/lib/utils.ts): ISO language
 * codes with their English names, and grouped genre ids with their names, with
 * the four lookups over them.
 */
module Lookup {
  import opened Wrappers
  import opened Seqs
  import Text

  datatype Language = Language(code: string, name: string)

  /** One entry of the language table, in the table's own order. */
  function LanguageAt(i: nat): Language
    requires i < 46
  {
    match i
    case 0 => Language("af", "Afrikaans")
    case 1 => Language("en", "English")
    case 2 => Language("es", "Spanish")
    case 3 => Language("fr", "French")
    case 4 => Language("de", "German")
    case 5 => Language("it", "Italian")
    case 6 => Language("pt", "Portuguese")
    case 7 => Language("ru", "Russian")
    case 8 => Language("ja", "Japanese")
    case 9 => Language("ko", "Korean")
    case 10 => Language("zh", "Chinese")
    case 11 => Language("hi", "Hindi")
    case 12 => Language("ar", "Arabic")
    case 13 => Language("bg", "Bulgarian")
    case 14 => Language("bn", "Bengali")
    case 15 => Language("ca", "Catalan")
    case 16 => Language("ch", "Chamorro")
    case 17 => Language("cs", "Czech")
    case 18 => Language("da", "Danish")
    case 19 => Language("el", "Greek")
    case 20 => Language("eo", "Esperanto")
    case 21 => Language("eu", "Basque")
    case 22 => Language("fa", "Persian")
    case 23 => Language("fi", "Finnish")
    case 24 => Language("he", "Hebrew")
    case 25 => Language("hu", "Hungarian")
    case 26 => Language("id", "Indonesian")
    case 27 => Language("ka", "Georgian")
    case 28 => Language("kn", "Kannada")
    case 29 => Language("lt", "Lithuanian")
    case 30 => Language("ml", "Malayalam")
    // The table stores this name as the UTF-8 bytes of "å" read as Latin-1.
    case 31 => Language("nb", "Norwegian Bokm\U{00C3}\U{00A5}l")
    case 32 => Language("nl", "Dutch")
    case 33 => Language("no", "Norwegian")
    case 34 => Language("pl", "Polish")
    case 35 => Language("ro", "Romanian")
    case 36 => Language("sk", "Slovak")
    case 37 => Language("sl", "Slovenian")
    case 38 => Language("sr", "Serbian")
    case 39 => Language("sv", "Swedish")
    case 40 => Language("ta", "Tamil")
    case 41 => Language("te", "Telugu")
    case 42 => Language("th", "Thai")
    case 43 => Language("tr", "Turkish")
    case 44 => Language("uk", "Ukrainian")
    case 45 => Language("vi", "Vietnamese")
  }

  /** The language table, in insertion order (the order `Object.keys` and `Object.values` give). */
  function Languages(): seq<Language>
  {
    seq(46, i requires 0 <= i < 46 => LanguageAt(i))
  }

  lemma LanguageCodesDistinct()
    ensures forall i, j :: 0 <= i < j < |Languages()| ==> Languages()[i].code != Languages()[j].code
  {
  }

  lemma LanguageNamesDistinct()
    ensures forall i, j :: 0 <= i < j < |Languages()| ==> Languages()[i].name != Languages()[j].name
  {
  }

  /** Every name is longer than two characters and has a lower-case ASCII letter after its first. */
  lemma LanguageNamesHaveSmallLetters()
    ensures forall i :: 0 <= i < |Languages()| ==> |Languages()[i].name| > 2 && 'a' <= Languages()[i].name[1] <= 'z'
  {
  }

  ghost predicate IsLanguageCode(code: string)
  {
    exists i :: 0 <= i < |Languages()| && Languages()[i].code == code
  }

  ghost predicate IsLanguageName(name: string)
  {
    exists i :: 0 <= i < |Languages()| && Languages()[i].name == name
  }

  /** The name for a code; an unknown code comes back upper-cased. */
  function GetLanguageName(code: string): (r: string)
    ensures forall i :: 0 <= i < |Languages()| && Languages()[i].code == code ==> r == Languages()[i].name
    ensures !IsLanguageCode(code) ==> r == Text.Upper(code)
  {
    LanguageCodesDistinct();
    match FirstIndex(Languages(), (l: Language) => l.code == code)
    case Some(i) => Languages()[i].name
    case None => Text.Upper(code)
  }

  /** The first code whose name is exactly `name`; an unknown name comes back unchanged. */
  function GetLanguageCode(name: string): (r: string)
    ensures forall i :: 0 <= i < |Languages()| && Languages()[i].name == name ==> r == Languages()[i].code
    ensures !IsLanguageName(name) ==> r == name
  {
    LanguageNamesDistinct();
    match FirstIndex(Languages(), (l: Language) => l.name == name)
    case Some(i) => Languages()[i].code
    case None => name
  }

  /** A known code survives the trip to its name and back. */
  lemma LanguageCodeRoundTrip(code: string)
    requires IsLanguageCode(code)
    ensures IsLanguageName(GetLanguageName(code))
    ensures GetLanguageCode(GetLanguageName(code)) == code
  {
    var i :| 0 <= i < |Languages()| && Languages()[i].code == code;
    assert GetLanguageName(code) == Languages()[i].name;
  }

  /** A known name survives the trip to its code and back. */
  lemma LanguageNameRoundTrip(name: string)
    requires IsLanguageName(name)
    ensures IsLanguageCode(GetLanguageCode(name))
    ensures GetLanguageName(GetLanguageCode(name)) == name
  {
    var i :| 0 <= i < |Languages()| && Languages()[i].name == name;
    assert GetLanguageCode(name) == Languages()[i].code;
  }

  /** No name has two characters, so any two-character string, in particular every code, is its own code. */
  lemma TwoLetterCodeUnchanged(s: string)
    requires |s| == 2
    ensures GetLanguageCode(s) == s
  {
    LanguageNamesHaveSmallLetters();
    assert !IsLanguageName(s);
  }

  lemma LanguageExamples()
    ensures GetLanguageName("hi") == "Hindi"
  {
    assert LanguageAt(11) == Language("hi", "Hindi");
    assert Languages()[11] == LanguageAt(11);
  }

  lemma CodeStaysExample()
    ensures GetLanguageCode("hi") == "hi"
  {
    TwoLetterCodeUnchanged("hi");
  }

  lemma LanguageCodeExample()
    ensures GetLanguageCode("Korean") == "ko"
  {
    assert LanguageAt(9) == Language("ko", "Korean");
    assert Languages()[9] == LanguageAt(9);
  }

  lemma UnknownCodeExample()
    ensures GetLanguageName("xx") == "XX"
  {
    assert !IsLanguageCode("xx");
    assert Text.Upper("xx") == "XX";
  }

  /**
   * An unknown code does not come back: its upper-cased form is no language
   * name, so looking the name up again yields the upper-cased code.
   */
  lemma UnknownLanguageCodeRoundTrip(code: string)
    requires !IsLanguageCode(code)
    ensures GetLanguageCode(GetLanguageName(code)) == Text.Upper(code)
  {
    var u := Text.Upper(code);
    if IsLanguageName(u) {
      var i :| 0 <= i < |Languages()| && Languages()[i].name == u;
      LanguageNamesHaveSmallLetters();
      assert false;
    }
  }

  datatype Genre = Genre(ids: seq<int>, name: string)

  /** One entry of the genre table, in the table's own order. */
  function GenreAt(i: nat): Genre
    requires i < 26
  {
    match i
    case 0 => Genre([28, 10759], "Action & Adventure")
    case 1 => Genre([12], "Adventure")
    case 2 => Genre([16], "Animation")
    case 3 => Genre([35], "Comedy")
    case 4 => Genre([80], "Crime")
    case 5 => Genre([99], "Documentary")
    case 6 => Genre([18], "Drama")
    case 7 => Genre([10751], "Family")
    case 8 => Genre([14], "Fantasy")
    case 9 => Genre([36], "History")
    case 10 => Genre([27], "Horror")
    case 11 => Genre([10402], "Music")
    case 12 => Genre([9648], "Mystery")
    case 13 => Genre([10749], "Romance")
    case 14 => Genre([878], "Science Fiction")
    case 15 => Genre([10770], "TV Movie")
    case 16 => Genre([53], "Thriller")
    case 17 => Genre([10752], "War")
    case 18 => Genre([37], "Western")
    case 19 => Genre([10762], "Kids")
    case 20 => Genre([10763], "News")
    case 21 => Genre([10764], "Reality")
    case 22 => Genre([10765], "Sci-Fi & Fantasy")
    case 23 => Genre([10766], "Soap")
    case 24 => Genre([10767], "Talk")
    case 25 => Genre([10768], "War & Politics")
  }

  function Genres(): seq<Genre>
  {
    seq(26, i requires 0 <= i < 26 => GenreAt(i))
  }

  lemma GenreNamesDistinct()
    ensures forall i, j :: 0 <= i < j < |Genres()| ==> Genres()[i].name != Genres()[j].name
  {
  }

  /** No id belongs to two genres, and every genre has at least one id. */
  lemma GenreIdsDisjoint()
    ensures forall i, j, x :: 0 <= i < j < |Genres()| && x in Genres()[i].ids ==> x !in Genres()[j].ids
    ensures forall i :: 0 <= i < |Genres()| ==> |Genres()[i].ids| > 0
  {
  }

  ghost predicate IsGenreId(id: int)
  {
    exists i :: 0 <= i < |Genres()| && id in Genres()[i].ids
  }

  ghost predicate IsGenreName(name: string)
  {
    exists i :: 0 <= i < |Genres()| && Genres()[i].name == name
  }

  /** The name of the genre an id belongs to, or "Unknown". */
  function GetGenreName(id: int): (r: string)
    ensures forall i :: 0 <= i < |Genres()| && id in Genres()[i].ids ==> r == Genres()[i].name
    ensures !IsGenreId(id) ==> r == "Unknown"
  {
    GenreIdsDisjoint();
    match FirstIndex(Genres(), (g: Genre) => id in g.ids)
    case Some(i) => Genres()[i].name
    case None => "Unknown"
  }

  /** The ids of the genre with exactly this name, or no ids. */
  function GetGenreIds(name: string): (r: seq<int>)
    ensures forall i :: 0 <= i < |Genres()| && Genres()[i].name == name ==> r == Genres()[i].ids
    ensures !IsGenreName(name) ==> r == []
  {
    GenreNamesDistinct();
    match FirstIndex(Genres(), (g: Genre) => g.name == name)
    case Some(i) => Genres()[i].ids
    case None => []
  }

  /** A name has ids exactly when it is a genre of the table. */
  lemma GenreIdsNonEmptyIff(name: string)
    ensures |GetGenreIds(name)| > 0 <==> IsGenreName(name)
  {
    if IsGenreName(name) {
      var i :| 0 <= i < |Genres()| && Genres()[i].name == name;
      GenreIdsDisjoint();
    }
  }

  /** A known id is among the ids of its genre's name. */
  lemma GenreIdRoundTrip(id: int)
    requires IsGenreId(id)
    ensures IsGenreName(GetGenreName(id))
    ensures id in GetGenreIds(GetGenreName(id))
  {
    var i :| 0 <= i < |Genres()| && id in Genres()[i].ids;
    assert GetGenreName(id) == Genres()[i].name;
  }

  /** A known genre name survives the trip to its ids and back through any of them. */
  lemma GenreNameRoundTrip(name: string, id: int)
    requires id in GetGenreIds(name)
    ensures GetGenreName(id) == name
  {
    var i :| 0 <= i < |Genres()| && Genres()[i].name == name;
  }

  lemma GenreExamples()
    ensures GetGenreIds("Action & Adventure") == [28, 10759]
    ensures GetGenreName(10759) == "Action & Adventure"
  {
    assert GenreAt(0) == Genre([28, 10759], "Action & Adventure");
    assert Genres()[0] == GenreAt(0);
    assert 10759 in Genres()[0].ids;
  }

  lemma GenreNameExample()
    ensures GetGenreName(27) == "Horror"
    ensures GetGenreIds("Sci-fi") == []
  {
    assert GenreAt(10) == Genre([27], "Horror");
    assert Genres()[10] == GenreAt(10);
    assert 27 in Genres()[10].ids;
    assert !IsGenreName("Sci-fi");
  }

  /** An id outside the table is "Unknown", and "Unknown" has no ids. */
  lemma UnknownGenre(id: int)
    requires !IsGenreId(id)
    ensures GetGenreIds(GetGenreName(id)) == []
  {
    assert !IsGenreName("Unknown");
  }
}
