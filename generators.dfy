/**
 * The world-generation helpers of `core/utils/generators.py`: the rule that
 * drops a short trailing word from a generated name, the level assignment of
 * the dungeons, and the assembly of a town and of a region.
 *
 * The Markov name generator, the corpus and the seeded random generator are
 * not part of this model: the raw names, the biome keys, the level picks and
 * the biome pick they produce are inputs, and so is `str.title`.
 */
module Generators {
  import opened Wrappers

  /** The characters Python's `str.split()` splits on (`str.isspace`). */
  predicate IsSpace(c: char)
  {
    var n := c as int;
    n == 0x20 || 0x09 <= n <= 0x0D || 0x1C <= n <= 0x1F || n == 0x85 || n == 0xA0
    || n == 0x1680 || 0x2000 <= n <= 0x200A || n == 0x2028 || n == 0x2029
    || n == 0x202F || n == 0x205F || n == 0x3000
  }

  /** A word as `split()` produces it: non-empty and without whitespace. */
  predicate IsWord(w: string)
  {
    w != [] && forall k | 0 <= k < |w| :: !IsSpace(w[k])
  }

  /** The length of the run of non-space characters that starts `s`. */
  function WordLength(s: string): (n: nat)
    ensures n <= |s|
    ensures forall k | 0 <= k < n :: !IsSpace(s[k])
    ensures n < |s| ==> IsSpace(s[n])
  {
    if s == [] || IsSpace(s[0]) then 0 else 1 + WordLength(s[1..])
  }

  /** `s.split()`: the maximal runs of non-space characters, in order. */
  function Split(s: string): (words: seq<string>)
    ensures forall k | 0 <= k < |words| :: IsWord(words[k])
    decreases |s|
  {
    if s == [] then []
    else if IsSpace(s[0]) then Split(s[1..])
    else
      var n := WordLength(s);
      [s[..n]] + Split(s[n..])
  }

  /** The total number of characters of `words`. */
  function Width(words: seq<string>): nat
  {
    if words == [] then 0 else |words[0]| + Width(words[1..])
  }

  /** `" ".join(words)`: the words with one separator character between neighbours. */
  function Join(words: seq<string>): (s: string)
    ensures words == [] ==> s == ""
    ensures words != [] ==> |s| == Width(words) + |words| - 1 && words[0] <= s
  {
    if words == [] then ""
    else if |words| == 1 then words[0]
    else words[0] + " " + Join(words[1..])
  }

  /**
   * `if len(words) > 1 and len(words[-1]) < 4: words.pop()`: the last word is
   * dropped exactly when there are at least two words and it is shorter than
   * four characters; a non-empty list never becomes empty.
   */
  function TrimShortLast(words: seq<string>): (r: seq<string>)
    ensures r <= words && |words| <= |r| + 1
    ensures |r| < |words| <==> |words| >= 2 && |words[|words| - 1]| < 4
    ensures words != [] ==> r != []
  {
    if |words| > 1 && |words[|words| - 1]| < 4 then words[..|words| - 1] else words
  }

  /**
   * `" ".join(words)` of the trimmed words of a generated name, before
   * `.title()`: its own words are exactly the trimmed words of the raw name.
   */
  function TrimmedName(raw: string): (name: string)
    ensures Split(name) == TrimShortLast(Split(raw))
  {
    SplitJoin(TrimShortLast(Split(raw)));
    Join(TrimShortLast(Split(raw)))
  }

  lemma {:induction false} WordLengthOfWord(w: string, rest: string)
    requires IsWord(w)
    requires rest == [] || IsSpace(rest[0])
    ensures WordLength(w + rest) == |w|
    decreases |w|
  {
    var s := w + rest;
    if |w| > 1 {
      assert s[1..] == w[1..] + rest;
      WordLengthOfWord(w[1..], rest);
    } else {
      assert s[1..] == rest;
    }
  }

  lemma SplitLeadingSpace(s: string)
    requires s != [] && IsSpace(s[0])
    ensures Split(s) == Split(s[1..])
  {
  }

  /** Leading whitespace, however long, yields no word. */
  lemma {:induction false} SplitSkipsSpaces(ws: string, s: string)
    requires forall k | 0 <= k < |ws| :: IsSpace(ws[k])
    ensures Split(ws + s) == Split(s)
  {
    if ws != [] {
      assert (ws + s)[1..] == ws[1..] + s;
      SplitLeadingSpace(ws + s);
      SplitSkipsSpaces(ws[1..], s);
    } else {
      assert ws + s == s;
    }
  }

  /** A run of whitespace of any length between two words separates them once. */
  lemma SplitOneSeparator(w: string, ws: string, rest: string)
    requires IsWord(w)
    requires ws != [] && forall k | 0 <= k < |ws| :: IsSpace(ws[k])
    ensures Split(w + ws + rest) == [w] + Split(rest)
  {
    var s := w + (ws + rest);
    assert w + ws + rest == s;
    WordLengthOfWord(w, ws + rest);
    assert s[..|w|] == w && s[|w|..] == ws + rest;
    SplitSkipsSpaces(ws, rest);
  }

  /** Splitting joined words gives the words back: `" ".join` and `split()` are inverse on words. */
  lemma {:induction false} SplitJoin(words: seq<string>)
    requires forall k | 0 <= k < |words| :: IsWord(words[k])
    ensures Split(Join(words)) == words
  {
    if words == [] {
    } else if |words| == 1 {
      var w := words[0];
      WordLengthOfWord(w, []);
      assert w + [] == w;
      assert w[|w|..] == [];
    } else {
      var w := words[0];
      var rest := " " + Join(words[1..]);
      var s := w + rest;
      assert Join(words) == s;
      WordLengthOfWord(w, rest);
      assert s[..|w|] == w;
      assert s[|w|..] == rest;
      SplitLeadingSpace(rest);
      assert rest[1..] == Join(words[1..]);
      SplitJoin(words[1..]);
    }
  }

  /** A town or dungeon as the generator returns it: `{'name': ..., 'level': ...}`. */
  datatype Place = Place(name: string, level: int)

  /** A region: its name, its biome and its locations. */
  datatype Region = Region(name: string, biome: string, towns: seq<Place>, dungeons: seq<Place>)

  /** The ways generation can raise: `random.choice` of an empty list, `pop()` of an empty list. */
  datatype GenError = EmptyChoice | PopFromEmpty

  /** One draw of `rand.choices(range(level, level + 4))`, as an offset from `level`. */
  type Pick = p: int | 0 <= p < 4

  /** `generate_town`: the trimmed generated name and the requested level. */
  function GenerateTown(raw: string, level: int, title: string -> string): (t: Place)
    ensures t.level == level
    ensures t.name == title(TrimmedName(raw))
  {
    Place(title(TrimmedName(raw)), level)
  }

  /**
   * `generate_dungeons`: one dungeon per generated name, in name order; the
   * levels `level + picks[k]` are drawn first and popped from the end, so the
   * i-th dungeon gets the level of pick `|picks| - 1 - i`. More names than
   * picks empties the level list and raises.
   */
  method GenerateDungeons(level: int, picks: seq<Pick>, names: seq<string>, title: string -> string)
    returns (r: Result<seq<Place>, GenError>)
    ensures r.Success? <==> |names| <= |picks|
    ensures r.Failure? ==> r.error == PopFromEmpty
    ensures r.Success? ==> |r.value| == |names|
    ensures r.Success? ==> forall i | 0 <= i < |names| ::
              r.value[i] == Place(title(TrimmedName(names[i])), level + picks[|picks| - 1 - i])
    ensures r.Success? ==> forall i | 0 <= i < |r.value| :: level <= r.value[i].level <= level + 3
  {
    var levels := seq(|picks|, k requires 0 <= k < |picks| => level + picks[k]);
    var dungeons: seq<Place> := [];
    for i := 0 to |names|
      invariant i <= |picks|
      invariant levels == seq(|picks| - i, k requires 0 <= k < |picks| - i => level + picks[k])
      invariant |dungeons| == i
      invariant forall m | 0 <= m < i :: dungeons[m] == Place(title(TrimmedName(names[m])), level + picks[|picks| - 1 - m])
    {
      if levels == [] {
        return Failure(PopFromEmpty);
      }
      var name := title(TrimmedName(names[i]));
      dungeons := dungeons + [Place(name, levels[|levels| - 1])];
      levels := levels[..|levels| - 1];
    }
    return Success(dungeons);
  }

  /**
   * `generate_region`: the biome is picked among the corpus biome keys, the
   * region and its town get trimmed generated names, the town the requested
   * level, and the dungeons come from `generate_dungeons` with `count=5`.
   */
  method GenerateRegion(level: int, biomes: seq<string>, biomePick: nat, regionRaw: string, townRaw: string,
                        dungeonRaws: seq<string>, picks: seq<Pick>, title: string -> string)
    returns (r: Result<Region, GenError>)
    requires biomes != [] ==> biomePick < |biomes|
    requires |picks| == 5
    ensures biomes == [] ==> r == Failure(EmptyChoice)
    ensures r.Success? <==> biomes != [] && |dungeonRaws| <= 5
    ensures r.Success? ==> r.value.biome in biomes && r.value.biome == biomes[biomePick]
    ensures r.Success? ==> r.value.name == title(TrimmedName(regionRaw))
    ensures r.Success? ==> r.value.towns == [GenerateTown(townRaw, level, title)] && r.value.towns[0].level == level
    ensures r.Success? ==> |r.value.dungeons| == |dungeonRaws|
    ensures r.Success? ==> forall i | 0 <= i < |r.value.dungeons| ::
              r.value.dungeons[i].name == title(TrimmedName(dungeonRaws[i]))
              && level <= r.value.dungeons[i].level <= level + 3
    ensures r.Success? ==> forall i | 0 <= i < |r.value.dungeons| ::
              r.value.dungeons[i].level == level + picks[4 - i]
  {
    if biomes == [] {
      return Failure(EmptyChoice);
    }
    var biome := biomes[biomePick];
    var name := title(TrimmedName(regionRaw));
    var town := GenerateTown(townRaw, level, title);
    var dungeons := GenerateDungeons(level, picks, dungeonRaws, title);
    if dungeons.Failure? {
      return Failure(dungeons.error);
    }
    return Success(Region(name, biome, [town], dungeons.value));
  }
}
