// lib/colorExtractor.ts: the colour behind the player artwork is not read
// from the image; it is one of fifteen fixed palettes chosen by a 32-bit
// rolling hash of the image URL, and remembered in a module-level cache.
// A character's code is taken as `c as int` (JavaScript's `charCodeAt`
// gives UTF-16 code units, which agree below U+10000).

module ColorExtractor {
  import opened Js

  /** One step of the hash: `((hash << 5) - hash) + char`, then `hash & hash`. */
  function HashStep(h: int, c: char): (r: int)
    ensures -TwoTo31 <= r < TwoTo31
  {
    ToInt32(ToInt32(h * 32) - h + c as int)
  }

  /** The hash of the first `n` characters. */
  function HashPrefix(s: string, n: nat): (r: int)
    requires n <= |s|
    ensures -TwoTo31 <= r < TwoTo31
  {
    if n == 0 then 0 else HashStep(HashPrefix(s, n - 1), s[n - 1])
  }

  function HashFold(s: string): int {
    HashPrefix(s, |s|)
  }

  /** Wrapping the shifted value first makes no difference: each step is `int32(31·h + c)`. */
  lemma HashStepIsLinear(h: int, c: char)
    ensures HashStep(h, c) == ToInt32(31 * h + c as int)
  {
    var a := ToInt32(h * 32);
    assert (a - h * 32) % TwoTo32 == 0;
    var x := a - h + c as int;
    var y := 31 * h + c as int;
    assert x - y == a - h * 32;
    ToInt32Congruent(x, y);
  }

  /** Numbers that differ by a multiple of 2^32 wrap to the same 32-bit integer. */
  lemma ToInt32Congruent(x: int, y: int)
    requires (x - y) % TwoTo32 == 0
    ensures ToInt32(x) == ToInt32(y)
  {
    var k := (x - y) / TwoTo32;
    assert x + TwoTo31 == (y + TwoTo31) + k * TwoTo32;
    ModShift(y + TwoTo31, k);
  }

  lemma ModShift(a: int, k: int)
    ensures (a + k * TwoTo32) % TwoTo32 == a % TwoTo32
  {
  }

  /** `simpleHash(str)`: the loop over the characters, then `Math.abs`. */
  method SimpleHash(str: string) returns (r: nat)
    ensures r == Abs(HashFold(str))
    ensures r <= TwoTo31
  {
    var hash := 0;
    var i := 0;
    while i < |str|
      invariant 0 <= i <= |str|
      invariant hash == HashPrefix(str, i)
    {
      hash := ToInt32(ToInt32(hash * 32) - hash + str[i] as int);
      i := i + 1;
    }
    r := Abs(hash);
  }

  datatype ColorResult = ColorResult(primary: string, text: string, isDark: bool)

  /** `spotifyColorPalettes`. */
  const Palettes: seq<ColorResult> := [
    ColorResult("#1DB954", "#000000", false),
    ColorResult("#E13300", "#FFFFFF", true),
    ColorResult("#8E44AD", "#FFFFFF", true),
    ColorResult("#3498DB", "#FFFFFF", true),
    ColorResult("#E67E22", "#000000", false),
    ColorResult("#16A085", "#FFFFFF", true),
    ColorResult("#C0392B", "#FFFFFF", true),
    ColorResult("#2C3E50", "#FFFFFF", true),
    ColorResult("#8E44AD", "#FFFFFF", true),
    ColorResult("#D35400", "#FFFFFF", true),
    ColorResult("#27AE60", "#000000", false),
    ColorResult("#2980B9", "#FFFFFF", true),
    ColorResult("#F39C12", "#000000", false),
    ColorResult("#E74C3C", "#FFFFFF", true),
    ColorResult("#9B59B6", "#FFFFFF", true)
  ]

  /** `hash % spotifyColorPalettes.length` (the hash is never negative). */
  function PaletteIndex(url: string): (k: nat)
    ensures k < |Palettes| == 15
  {
    Abs(HashFold(url)) % |Palettes|
  }

  /** The palette a URL is given when it is not cached. */
  function PaletteFor(url: string): ColorResult {
    Palettes[PaletteIndex(url)]
  }

  /** Every palette has a dark flag that matches its text colour: white text on dark, black on light. */
  lemma PalettesReadable()
    ensures forall k :: 0 <= k < |Palettes| ==>
      (Palettes[k].isDark <==> Palettes[k].text == "#FFFFFF") &&
      (!Palettes[k].isDark <==> Palettes[k].text == "#000000")
  {
  }

  /** The module-level `colorCache`. */
  class ColorCache {
    var cache: map<string, ColorResult>

    /** Every cached colour is the one the URL's hash selects. */
    predicate Valid()
      reads this
    {
      forall u :: u in cache ==> cache[u] == PaletteFor(u)
    }

    constructor()
      ensures cache == map[] && Valid()
    {
      cache := map[];
    }

    /**
     * `extractDominantColor(imageUrl)`: a cached URL is answered from the
     * cache, any other gets its palette, which is cached. Either way the
     * answer is the URL's palette, so a URL always gets the same colour.
     */
    method ExtractDominantColor(imageUrl: string) returns (r: ColorResult)
      requires Valid()
      modifies this
      ensures Valid()
      ensures r == PaletteFor(imageUrl)
      ensures imageUrl in old(cache) ==> cache == old(cache)
      ensures cache == old(cache)[imageUrl := r]
    {
      if imageUrl in cache {
        return cache[imageUrl];
      }
      var hash := SimpleHash(imageUrl);
      var colorIndex := hash % |Palettes|;
      r := Palettes[colorIndex];
      cache := cache[imageUrl := r];
    }

    /** `clearColorCache()`. */
    method ClearColorCache()
      modifies this
      ensures cache == map[] && Valid()
    {
      cache := map[];
    }
  }
}
