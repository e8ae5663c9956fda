/** The two reading endpoints and the generation step they share. The text
    generator is an opaque `Provider`: it sees the prompt's ingredients and
    either returns text or fails with a message. */
module Reading {
  import opened Wrappers
  import opened Seqs
  import opened Text
  import opened Cards
  import opened Elements
  import opened Sampling

  /** What a request without `name` is called. */
  const DefaultName: string := "Popotnik"

  /** The sign a request without `sign` gets. */
  const DefaultSign: string := "neznano"

  /** The fewest cards a manual reading takes, and the number drawn automatically. */
  const CardsPerReading: nat := 3

  /** The error returned when a manual request has too few cards. */
  const TooFewCards: string := "Vnesi tri karte!"

  /** The status of a reading. */
  const StatusOk: nat := 200
  /** The status of a manual request with too few cards. */
  const StatusBadRequest: nat := 400
  /** The status of a generator failure. */
  const StatusServerError: nat := 500

  /** The fields of a request's JSON body; `None` is a missing key (for
      `cards`, also an explicit `null`). */
  datatype Request = Request(name: Option<string>, sign: Option<string>, cards: Option<seq<string>>)

  /** What the prompt handed to the text generator is built from. */
  datatype Prompt = Prompt(name: string, sign: string, element: string, cards: seq<string>)

  /** A successful reading: the cards, their image paths and the text. */
  datatype ReadingResult = ReadingResult(cards: seq<string>, images: seq<string>, reading: string)

  /** An HTTP reply: a reading (status 200) or an error body with its status. */
  datatype Response = Answer(result: ReadingResult) | Rejected(status: nat, error: string) {
    function Status(): nat {
      if Answer? then StatusOk else status
    }
  }

  /** The external text generator: generated text, or the provider's error message. */
  type Provider = Prompt -> Result<string, string>

  /** The caller's name, or `Popotnik` when the key is missing. */
  function NameOf(req: Request): string {
    req.name.GetOr(DefaultName)
  }

  /** The caller's sign, or `neznano` when the key is missing. */
  function SignOf(req: Request): string {
    req.sign.GetOr(DefaultSign)
  }

  /** The manual card list; a missing list counts as empty. */
  function CardsOf(req: Request): seq<string> {
    req.cards.GetOr([])
  }

  /** The prompt ingredients: the caller's name and sign as given, the
      sign's element, and the cards. */
  function PromptFor(name: string, sign: string, cards: seq<string>): Prompt {
    Prompt(name, sign, ElementOf(sign), cards)
  }

  /** The shared generation step. It fails exactly when the provider fails,
      passing its message on; otherwise the result carries the input cards
      unchanged, one image path per card, and the stripped text. */
  function GenerateReading(name: string, sign: string, cards: seq<string>, provider: Provider): (r: Result<ReadingResult, string>)
    ensures r.Success? <==> provider(PromptFor(name, sign, cards)).Success?
    ensures r.Failure? ==> r.error == provider(PromptFor(name, sign, cards)).error
    ensures r.Success? ==>
      && r.value.cards == cards
      && |r.value.images| == |cards|
      && (forall i :: 0 <= i < |cards| ==> r.value.images[i] == ImagePath(cards[i]))
      && r.value.reading == Strip(provider(PromptFor(name, sign, cards)).value)
  {
    match provider(PromptFor(name, sign, cards))
    case Failure(e) => Failure(e)
    case Success(text) => Success(ReadingResult(cards, Images(cards), Strip(text)))
  }

  /** An endpoint's reply once its inputs are settled: the reading with
      status 200, or status 500 carrying the provider's message. */
  function Respond(name: string, sign: string, cards: seq<string>, provider: Provider): (resp: Response)
    ensures resp.Status() == StatusOk || resp.Status() == StatusServerError
    ensures resp.Answer? <==> provider(PromptFor(name, sign, cards)).Success?
    ensures resp.Rejected? ==> resp.error == provider(PromptFor(name, sign, cards)).error
    ensures resp.Status() == StatusServerError <==> provider(PromptFor(name, sign, cards)).Failure?
    ensures resp.Answer? ==> GenerateReading(name, sign, cards, provider) == Success(resp.result)
  {
    match GenerateReading(name, sign, cards, provider)
    case Success(result) => Answer(result)
    case Failure(e) => Rejected(StatusServerError, e)
  }

  /** `POST /manual_reading`: rejected with status 400 and the fixed message
      exactly when fewer than three cards are given; otherwise every given
      card, whatever it is and however many there are, goes to the shared
      generation step. */
  function ManualReading(req: Request, provider: Provider): (resp: Response)
    ensures resp.Status() == StatusBadRequest <==> |CardsOf(req)| < CardsPerReading
    ensures resp.Status() == StatusBadRequest ==> resp == Rejected(StatusBadRequest, TooFewCards)
    ensures |CardsOf(req)| >= CardsPerReading ==>
      resp == Respond(NameOf(req), SignOf(req), CardsOf(req), provider)
  {
    var cards := CardsOf(req);
    if cards == [] || |cards| < CardsPerReading then Rejected(StatusBadRequest, TooFewCards)
    else Respond(NameOf(req), SignOf(req), cards, provider)
  }

  /** Three distinct cards from the deck, as `random.sample(TAROT, 3)`. */
  method DrawCards(roll: nat -> nat) returns (drawn: seq<string>)
    ensures |drawn| == CardsPerReading
    ensures Distinct(drawn)
    ensures forall i :: 0 <= i < |drawn| ==> drawn[i] in Tarot
  {
    TarotIsADeck();
    var sample := Sample(Tarot, CardsPerReading, roll);
    assert sample.Success?;
    drawn := sample.value;
    SubMultisetOfDistinct(drawn, Tarot);
  }

  /** `POST /reading`: draws three distinct deck cards and answers like the
      shared generation step on them; it never rejects a request as bad. */
  method AutoReading(req: Request, provider: Provider, roll: nat -> nat) returns (drawn: seq<string>, resp: Response)
    ensures |drawn| == CardsPerReading && Distinct(drawn)
    ensures forall i :: 0 <= i < |drawn| ==> drawn[i] in Tarot
    ensures resp == Respond(NameOf(req), SignOf(req), drawn, provider)
    ensures resp.Status() != StatusBadRequest
    ensures resp.Status() == StatusServerError <==> provider(PromptFor(NameOf(req), SignOf(req), drawn)).Failure?
  {
    drawn := DrawCards(roll);
    resp := Respond(NameOf(req), SignOf(req), drawn, provider);
  }

  /** A request that leaves out `name` and `sign` reaches the generator as
      the default traveller with the default sign, whose element is the
      unknown-element sentinel; both endpoints build their prompt this way. */
  lemma DefaultsApplied(req: Request, cards: seq<string>)
    requires req.name.None? && req.sign.None?
    ensures PromptFor(NameOf(req), SignOf(req), cards) == Prompt(DefaultName, DefaultSign, UnknownElement, cards)
  {
    DefaultSignIsUnknown();
  }

  /** A manual request with at least three cards is answered whenever the
      generator answers, with exactly the given cards in the given order and
      one image per card, even for names that are not in the deck. */
  lemma ManualAcceptsAnyCards(req: Request, provider: Provider)
    requires |CardsOf(req)| >= CardsPerReading
    requires provider(PromptFor(NameOf(req), SignOf(req), CardsOf(req))).Success?
    ensures ManualReading(req, provider) == Answer(ReadingResult(CardsOf(req), Images(CardsOf(req)),
      Strip(provider(PromptFor(NameOf(req), SignOf(req), CardsOf(req))).value)))
    ensures |ManualReading(req, provider).result.images| == |CardsOf(req)| >= CardsPerReading
  {
  }

  /** A generator failure reaches a well-formed manual request as status 500
      with the generator's message, whatever the sign. */
  lemma ManualProviderFailure(req: Request, provider: Provider)
    requires |CardsOf(req)| >= CardsPerReading
    requires provider(PromptFor(NameOf(req), SignOf(req), CardsOf(req))).Failure?
    ensures ManualReading(req, provider) ==
      Rejected(StatusServerError, provider(PromptFor(NameOf(req), SignOf(req), CardsOf(req))).error)
  {
  }

  /** A generator failure reaches the automatic endpoint as status 500 with
      the generator's message, whichever three cards were drawn. */
  lemma AutoProviderFailure(req: Request, drawn: seq<string>, provider: Provider)
    requires provider(PromptFor(NameOf(req), SignOf(req), drawn)).Failure?
    ensures Respond(NameOf(req), SignOf(req), drawn, provider) ==
      Rejected(StatusServerError, provider(PromptFor(NameOf(req), SignOf(req), drawn)).error)
  {
  }

  /** A sign outside the table never blocks a reading: the generator is
      asked with the sentinel element, and its answer is the endpoint's. */
  lemma UnknownSignAnswered(name: string, sign: string, cards: seq<string>, provider: Provider)
    requires Lower(sign) !in ElementBySign
    requires provider(Prompt(name, sign, UnknownElement, cards)).Success?
    ensures Respond(name, sign, cards, provider).Answer?
  {
  }

  /** The worked manual request: Ana, sign `rak`, three cards. */
  lemma ManualExample(provider: Provider)
    requires provider(Prompt("Ana", "rak", Water, ["The Fool", "Death", "The Star"])).Success?
    ensures var resp := ManualReading(Request(Some("Ana"), Some("rak"), Some(["The Fool", "Death", "The Star"])), provider);
      && resp.Answer?
      && resp.result.cards == ["The Fool", "Death", "The Star"]
      && resp.result.images == ["/cards/the_fool.png", "/cards/death.png", "/cards/the_star.png"]
  {
    var cards := ["The Fool", "Death", "The Star"];
    var req := Request(Some("Ana"), Some("rak"), Some(cards));
    assert PromptFor(NameOf(req), SignOf(req), CardsOf(req)) == Prompt("Ana", "rak", Water, cards) by {
      LowerOfLowercase("rak");
    }
    ManualAcceptsAnyCards(req, provider);
    ExampleImages();
  }

  /** The image paths of the worked request's cards. */
  lemma ExampleImages()
    ensures Images(["The Fool", "Death", "The Star"]) == ["/cards/the_fool.png", "/cards/death.png", "/cards/the_star.png"]
  {
    var cards := ["The Fool", "Death", "The Star"];
    var images := Images(cards);
    assert images[0] == "/cards/the_fool.png" by { TheFoolImage(); }
    assert images[1] == "/cards/death.png" by { DeathImage(); }
    assert images[2] == "/cards/the_star.png" by { TheStarImage(); }
  }
}
