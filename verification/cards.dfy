/** The fixed tarot deck and the rule that turns a card name into the path
    of its image under the `/cards/` route. */
module Cards {
  import opened Wrappers
  import opened Seqs
  import opened Text

  /** The 22 cards the automatic draw picks from (the major arcana). */
  const Tarot: seq<string> := [
    "The Fool", "The Magician", "The High Priestess", "The Empress", "The Emperor",
    "The Hierophant", "The Lovers", "The Chariot", "Strength", "The Hermit",
    "Wheel of Fortune", "Justice", "The Hanged Man", "Death", "Temperance",
    "The Devil", "The Tower", "The Star", "The Moon", "The Sun", "Judgement", "The World"
  ]

  /** The deck holds 22 different names. */
  lemma TarotIsADeck()
    ensures |Tarot| == 22
    ensures Distinct(Tarot)
  {
  }

  /** The URL prefix of the route that serves card images. */
  const ImageDir: string := "/cards/"

  /** The file extension of every card image. */
  const ImageExt: string := ".png"

  /** The image-name form of one character: lowercase, and an underscore
      in place of a space. */
  function SlugChar(c: char): char {
    if c == ' ' then '_' else LowerChar(c)
  }

  /** The file stem of a card's image: the name lowercased, then every
      space replaced by an underscore. */
  function Slug(card: string): (r: string)
    ensures |r| == |card|
    ensures forall i :: 0 <= i < |card| ==> r[i] == SlugChar(card[i])
    ensures ' ' !in r && NoUpper(r)
  {
    ReplaceChar(Lower(card), ' ', '_')
  }

  /** The image path reported for a card. */
  function ImagePath(card: string): (p: string)
    ensures |p| == |ImageDir| + |card| + |ImageExt|
    ensures p[..|ImageDir|] == ImageDir
    ensures p[|p| - |ImageExt|..] == ImageExt
    ensures p[|ImageDir|..|p| - |ImageExt|] == Slug(card)
  {
    ImageDir + Slug(card) + ImageExt
  }

  /** The image paths of a card list, one per card and in the same order. */
  function Images(cards: seq<string>): (images: seq<string>)
    ensures |images| == |cards|
    ensures forall i :: 0 <= i < |cards| ==> images[i] == ImagePath(cards[i])
  {
    MapSeq(ImagePath, cards)
  }

  /** The image at a position depends on the card at that position alone. */
  lemma ImageDependsOnlyOnCard(a: seq<string>, b: seq<string>, i: nat)
    requires i < |a| && i < |b| && a[i] == b[i]
    ensures Images(a)[i] == Images(b)[i]
  {
  }

  /** The file name the `/cards/<path:filename>` route extracts from an
      already decoded request path, or `None` when the route does not match.
      The `path` converter takes any non-empty rest that does not start
      with `/`. */
  function ServedFile(path: string): (r: Option<string>)
    ensures r.Some? ==> ImageDir + r.value == path && r.value != [] && r.value[0] != '/'
    ensures r.None? ==>
      |path| <= |ImageDir| || path[..|ImageDir|] != ImageDir || path[|ImageDir|] == '/'
  {
    if |path| > |ImageDir| && path[..|ImageDir|] == ImageDir && path[|ImageDir|] != '/' then
      Some(path[|ImageDir|..])
    else
      None
  }

  /** Characters a browser would not send through unchanged in a path
      segment: a separator, an escape, the start of a query or fragment, or
      a tab or line break, which URL parsing deletes. */
  const UrlSpecials: string := "/\\%?#\t\n\r"

  /** A card name whose image path reaches the server as written. */
  predicate PlainName(card: string) {
    forall i :: 0 <= i < |card| ==> card[i] !in UrlSpecials
  }

  /** The image path of a plain name is matched by the image route, which
      looks up the slug with the `.png` extension. */
  lemma ImagePathIsServed(card: string)
    requires PlainName(card)
    ensures ServedFile(ImagePath(card)) == Some(Slug(card) + ImageExt)
  {
    assert ImagePath(card)[|ImageDir|..] == Slug(card) + ImageExt;
    if card != [] {
      assert ImagePath(card)[|ImageDir|] == SlugChar(card[0]);
      assert card[0] != '/';
    }
  }

  /** Every deck name is plain, so every drawn card's image path is matched
      by the image route. The deck is checked in four fixed slices only to
      keep each proof small. */
  lemma TarotNamesArePlain()
    ensures forall i :: 0 <= i < |Tarot| ==> PlainName(Tarot[i])
  {
    TarotIsADeck();
    LettersArePlain();
    TarotLettersFirst();
    TarotLettersSecond();
    TarotLettersThird();
    TarotLettersFourth();
  }

  /** A name of letters and spaces only. */
  predicate Letters(card: string) {
    forall j :: 0 <= j < |card| ==> ('A' <= card[j] <= 'Z') || ('a' <= card[j] <= 'z') || card[j] == ' '
  }

  /** Letters and spaces are no URL specials. */
  lemma LettersArePlain()
    ensures forall card :: Letters(card) ==> PlainName(card)
  {
  }

  /** The first six deck names are letters and spaces. */
  lemma TarotLettersFirst()
    ensures forall i :: 0 <= i < 6 ==> Letters(Tarot[i])
  {
  }

  /** The deck names at positions 6 to 10 are letters and spaces. */
  lemma TarotLettersSecond()
    ensures forall i :: 6 <= i < 11 ==> Letters(Tarot[i])
  {
  }

  /** The deck names at positions 11 to 15 are letters and spaces. */
  lemma TarotLettersThird()
    ensures forall i :: 11 <= i < 16 ==> Letters(Tarot[i])
  {
  }

  /** The last six deck names are letters and spaces. */
  lemma TarotLettersFourth()
    ensures forall i :: 16 <= i < 22 ==> Letters(Tarot[i])
  {
  }

  /** Two names share an image exactly when they agree character by
      character after folding case and spaces. */
  lemma ImagePathSameIff(a: string, b: string)
    ensures ImagePath(a) == ImagePath(b) <==>
      |a| == |b| && forall i :: 0 <= i < |a| ==> SlugChar(a[i]) == SlugChar(b[i])
  {
    if ImagePath(a) == ImagePath(b) {
      assert Slug(a) == ImagePath(a)[|ImageDir|..|ImagePath(a)| - |ImageExt|];
      forall i | 0 <= i < |a| ensures SlugChar(a[i]) == SlugChar(b[i]) {
        assert Slug(a)[i] == Slug(b)[i];
      }
    }
    if |a| == |b| && forall i :: 0 <= i < |a| ==> SlugChar(a[i]) == SlugChar(b[i]) {
      assert Slug(a) == Slug(b);
    }
  }

  /** The image of a name does not depend on its letter case. */
  lemma ImagePathIgnoresCase(card: string)
    ensures ImagePath(Lower(card)) == ImagePath(card)
  {
    assert Slug(Lower(card)) == Slug(card);
  }

  /** Worked examples of the naming rule. */
  lemma ImagePathExamples()
    ensures ImagePath("The Fool") == "/cards/the_fool.png"
    ensures ImagePath("Wheel of Fortune") == "/cards/wheel_of_fortune.png"
    ensures ImagePath("Death") == "/cards/death.png"
  {
    TheFoolImage();
    WheelOfFortuneImage();
    DeathImage();
  }

  /** The first worked example, through its slug. */
  lemma TheFoolImage()
    ensures ImagePath("The Fool") == "/cards/the_fool.png"
  {
    SlugExample("The Fool", "the_fool", "/cards/the_fool.png");
  }

  /** The second worked example, through its slug. */
  lemma WheelOfFortuneImage()
    ensures ImagePath("Wheel of Fortune") == "/cards/wheel_of_fortune.png"
  {
    WheelOfFortuneChars();
    SlugExample("Wheel of Fortune", "wheel_of_fortune", "/cards/wheel_of_fortune.png");
  }

  /** The image of `The Star`, used by the worked request. */
  lemma TheStarImage()
    ensures ImagePath("The Star") == "/cards/the_star.png"
  {
    SlugExample("The Star", "the_star", "/cards/the_star.png");
  }

  /** The third worked example, through its slug. */
  lemma DeathImage()
    ensures ImagePath("Death") == "/cards/death.png"
  {
    SlugExample("Death", "death", "/cards/death.png");
  }

  /** The characters of the longest example, folded one by one. */
  lemma WheelOfFortuneChars()
    ensures forall i :: 0 <= i < 16 ==> SlugChar("Wheel of Fortune"[i]) == "wheel_of_fortune"[i]
  {
  }

  /** Checks one image path through its slug, character by character. */
  lemma SlugExample(card: string, slug: string, path: string)
    requires |card| == |slug|
    requires forall i :: 0 <= i < |card| ==> SlugChar(card[i]) == slug[i]
    requires path == ImageDir + slug + ImageExt
    ensures ImagePath(card) == path
  {
  }
}
