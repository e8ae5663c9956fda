# Tarot reading backend — Dafny model

A model of the request logic of a small Flask backend that serves tarot
readings. Two endpoints exist: `POST /reading` draws three cards from a
fixed 22-card deck. `POST /manual_reading` takes the cards from the caller.
Both look up the element of the caller's astrological sign, which is
case-insensitive and falls back to a sentinel. Both then ask an external text
generator for a reading, strip the text, and derive one image path per card.

The model is pure and functional:

- `Wrappers` holds `Option` (a JSON key that may be missing) and `Result` (a call that may raise).
- `Seqs` holds element-wise mapping, distinctness, and the fact that a sub-multiset of a repetition-free sequence is repetition-free.
- `Text` holds Python's `str.lower` (on the modelled alphabet), `str.replace` of one character, and `str.strip` with Python's exact white-space set.
- `Cards` holds the deck, the card-name → image-path rule, and the `/cards/<path:filename>` route match.
- `Elements` holds the sign → element table and lookup, plus an independent grouping of the signs by element.
- `Sampling` holds `random.sample` with the random source as a parameter.
- `Reading` holds request defaults, the shared generation step, the HTTP replies (200/400/500) and both endpoints.

The text generator is a parameter of type `Provider`. It is a function from the prompt's
ingredients (name, sign, element, cards) to either the generated text or
the provider's error message. Randomness is a parameter `roll: nat -> nat`
giving the raw number behind each draw.

A manual reading passes on every supplied card once there are at least
three (app.py:87-92); nothing caps the list at three or checks the names
against the deck. `Reading.ManualReading` and `Reading.ManualAcceptsAnyCards`
state this for any length of at least three.

## Model

| member | source | states |
|---|---|---|
| `Text.Lower` | app.py:41 | lowercasing keeps the length, leaves no capital, changes exactly the capital letters, and puts the lowercase of character i at position i |
| `Text.LowerAlphabet` | app.py:41 | the folded capitals are exactly `A`–`Z`, Ć, Č, Đ, Š, Ž, and lowercasing that alphabet gives `a`–`z`, ć, č, đ, š, ž |
| `Text.LowerIdempotent` | app.py:41 | lowercasing an already lowercased string changes nothing |
| `Text.LowerOfLowercase` | app.py:41 | a string without capitals is its own lowercase form |
| `Text.ReplaceChar` | app.py:65 | replacing one character keeps the length, puts `to` exactly where `from` was, and, when `from` differs from `to`, leaves no `from` behind |
| `Text.Strip` | app.py:64 | the stripped text has no white space at either end and is what remains after removing only white space from both ends |
| `Text.StripUnique` | app.py:64 | any infix meeting that description is the stripped text, so the description pins the result down |
| `Text.StripIdempotent` | app.py:64 | stripping twice is stripping once |
| `Cards.TarotIsADeck` | app.py:16-21 | the deck holds 22 pairwise different names |
| `Cards.Slug` | app.py:65 | the file stem has the name's length, character i is the lowercase of character i with a space turned into `_`, and no space or capital remains |
| `Cards.ImagePath` | app.py:65 | the image path is `/cards/` + the stem + `.png`, with length of the name plus 11 |
| `Cards.Images` | app.py:65 | one image path per card, in card order |
| `Cards.ImageDependsOnlyOnCard` | app.py:65 | image i depends on card i alone |
| `Cards.ServedFile` | app.py:31-33 | the image route matches exactly the decoded request paths under `/cards/` whose file name is non-empty and does not start with `/`, and returns that file name |
| `Cards.ImagePathIsServed` | app.py:31-33 | the image path of a name without `/`, `\`, `%`, `?`, `#`, tab, LF or CR is matched by the image route, which looks up the stem plus `.png` |
| `Cards.TarotNamesArePlain` | app.py:16-21 | every deck name is free of those characters, so the image path of a drawn card is matched by the image route |
| `Cards.ImagePathSameIff` | app.py:65 | two names share an image exactly when they agree character by character after folding case and space to underscore |
| `Cards.ImagePathIgnoresCase` | app.py:65 | a name and its lowercase form share an image |
| `Cards.ImagePathExamples` | app.py:65 | `The Fool`, `Wheel of Fortune` and `Death` map to `/cards/the_fool.png`, `/cards/wheel_of_fortune.png` and `/cards/death.png` |
| `Elements.ElementOf` | app.py:41 | the lookup never fails; it yields one of the four elements, or the sentinel exactly when the lowercase sign is not a table key |
| `Elements.ElementOfMatchesGroups` | app.py:23-28 | a sign has fire, earth, air or water exactly when its lowercase form is one of that element's three signs, and the sentinel exactly when it is in no group |
| `Elements.ThreeSignsPerElement` | app.py:23-28 | the table's signs for each of the four elements are exactly that element's group of three |
| `Elements.TableElements` | app.py:23-28 | the table assigns the four elements and nothing else |
| `Elements.SignsAreLowercase` | app.py:23-28 | no table key has a capital letter |
| `Elements.KnownSignsFound` | app.py:23-41 | every table key, written as in the table, is found by the lowercasing lookup |
| `Elements.ElementIgnoresCase` | app.py:41 | signs with the same lowercase form get the same element |
| `Elements.KnownSignExamples` | app.py:41 | `OVEN` and `oven` give `ogenj`; `Škorpijon` gives `voda` |
| `Elements.DefaultSignIsUnknown` | app.py:41 | the default sign `neznano` yields `neznan element` |
| `Sampling.Sample` | app.py:74 | the sample fails exactly when more elements are asked for than exist; otherwise it has k elements, drawn without replacement from the population (sub-multiset) |
| `Seqs.SubMultisetOfDistinct` | app.py:74 | a draw without replacement from a repetition-free population repeats nothing and holds only population members |
| `Reading.GenerateReading` | app.py:40-66 | generation fails exactly when the provider fails, passing its message on; otherwise the result holds the input cards unchanged, image i for card i, and the stripped text |
| `Reading.Respond` | app.py:75-79 | the reply is 200 with the reading exactly when the provider answers, and 500 with the provider's message exactly when it fails |
| `Reading.ManualReading` | app.py:84-94 | status 400 with `Vnesi tri karte!` exactly when fewer than three cards (none counts as zero) are given; otherwise the shared generation step on all given cards |
| `Reading.DrawCards` | app.py:74 | the automatic draw is three pairwise different deck cards |
| `Reading.AutoReading` | app.py:70-79 | the automatic endpoint answers like the shared step on three distinct deck cards, never replies 400, and replies 500 exactly when the generator fails |
| `Reading.DefaultsApplied` | app.py:72-73 | a request without name and sign reaches the generator as `Popotnik` with sign `neznano` and element `neznan element` |
| `Reading.ManualAcceptsAnyCards` | app.py:87-92 | with three or more cards, whether in the deck or not, the reading holds exactly those cards, one image each, whenever the generator answers |
| `Reading.ManualProviderFailure` | app.py:90-94 | a generator failure on a well-formed manual request becomes status 500 with the generator's message |
| `Reading.AutoProviderFailure` | app.py:75-79 | a generator failure on the automatic endpoint becomes status 500 with the generator's message, whatever cards were drawn |
| `Reading.UnknownSignAnswered` | app.py:41 | a sign outside the table never blocks a reading: the generator gets the sentinel element and its answer is returned |
| `Reading.ManualExample` | app.py:84-92 | Ana, sign `rak`, cards `The Fool`, `Death`, `The Star` is answered with those cards and `/cards/the_fool.png`, `/cards/death.png`, `/cards/the_star.png` |
| `Reading.ExampleImages` | app.py:65 | the image list of that request's three cards |

## Left out

- Flask routing, template rendering for `/`, JSON body parsing and `jsonify` (app.py:31-37, 71, 84) are HTTP plumbing. `send_from_directory`'s file lookup, 404 and path-containment checks are left out too. Only the route's path match is modelled (`Cards.ServedFile`).
- Cards.ServedFile: takes the request path as already decoded. Browser URL handling is not modelled: the `?` and `#` split, `\` read as `/`, the deletion of tab, LF and CR, dot segments, and percent-encoding and decoding. Werkzeug's merging of repeated slashes is not modelled either. So `Cards.ImagePathIsServed` covers only names without `/`, `\`, `%`, `?`, `#`, tab, LF or CR. Every deck name qualifies. A manual card such as `What?` gets an image path that reaches a different file.
- The generator call (app.py:13, 58-63) is a foreign network call. It becomes the `Provider` parameter. The model name, temperature and token limit are not modelled. A completion whose content is missing counts as a provider failure.
- The prompt wording (app.py:43-56) is free text. The model keeps only its ingredients (`Reading.Prompt`): the name and sign as given, the element, and the cards. The `', '.join` of the cards is not modelled.
- Configuration loading and process start-up (app.py:5-10, 96-97) are not modelled.
- Sampling.Sample: the model follows CPython's pool branch of `random.sample` (partial Fisher–Yates). For a 22-element population CPython takes its set-based rejection branch instead. Both draw a uniformly random k-permutation and meet the same contract. `random.sample` belongs to Python's standard library, not to the backend.
- Text.Lower: models lowercasing only for ASCII `A`–`Z` and the capitals Ć, Č, Đ, Š, Ž. Python's full Unicode case mapping, including mappings that change the length, is left out.
- Request bodies that are not JSON objects are left out. So are `name`/`sign` values that are `null` or not strings. A `null` sign raises inside the `try` and would become a 500. `cards` values that are neither a list nor missing/`null` are left out too: a JSON string of length three or more would be accepted character by character. The model's `cards` is a list of strings or absent, and absent also stands for `null`. Both of those are rejected with 400, as in the source.
