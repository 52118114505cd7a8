/** `enhanceProductData` (src/services/aiService.js): asks a chat-completion service to
    classify a product and attaches the answer, or a fixed placeholder, as `enhancedData`.
    The HTTP request and `JSON.parse` are oracles passed in as `AiBackend`. */
module AiService {
  import opened Common
  import opened Text

  /** A parsed JSON value. Numbers keep their literal text. */
  datatype Json =
    | JNull
    | JBool(b: bool)
    | JNumber(literal: string)
    | JString(s: string)
    | JArray(items: seq<Json>)
    | JObject(members: seq<(string, Json)>)

  /** A product record. `None` stands for a field that is absent (or `null`, for `url`). */
  datatype Product = Product(
    title: string,
    price: string,
    url: Option<string>,
    description: Option<string>,
    enhancedData: Option<Json>,
    error: Option<string>)

  /** The parts of the user prompt that vary with the product. */
  datatype EnhanceRequest = EnhanceRequest(title: string, price: string, excerpt: string)

  /** `complete(req)`: the POST to the completion endpoint followed by reading
      `response.data.choices[0].message.content`, or the error either throws.
      `parse(text)`: `JSON.parse(text)`, None when it throws. */
  datatype AiBackend = AiBackend(
    complete: EnhanceRequest -> Outcome<string>,
    parse: string -> Option<Json>)

  /** How much of the description goes into the prompt (`substring(0, 1000)`). */
  const PromptLimit: nat := 1000

  /** `{category: '-', condition: '-', summary: '-'}`. */
  const Placeholder: Json :=
    JObject([("category", JString("-")), ("condition", JString("-")), ("summary", JString("-"))])

  /** The skip rule: the title is the placeholder, or the description is absent, empty or
      the placeholder. */
  predicate Incomplete(p: Product)
  {
    p.title == "-" || p.description.None? || p.description.value == "" || p.description.value == "-"
  }

  /** `description.substring(0, 1000)`: the longest start of the description that fits in
      1000 UTF-16 code units, which is the whole of a text that fits. */
  function Excerpt(d: string): (r: string)
    ensures |r| <= |d| && r == d[..|r|]
    ensures Utf16Length(r) <= PromptLimit
    ensures |r| < |d| ==> Utf16Length(d[..|r| + 1]) > PromptLimit
    ensures Utf16Length(d) <= PromptLimit ==> r == d
  {
    Utf16Prefix(d, PromptLimit)
  }

  /** The parts of the prompt taken from the product: its title and price as they are,
      and the excerpt of its description. */
  function RequestFor(p: Product): (req: EnhanceRequest)
    requires p.description.Some?
    ensures req.title == p.title && req.price == p.price
    ensures |req.excerpt| <= PromptLimit && |req.excerpt| <= |p.description.value|
    ensures req.excerpt == p.description.value[..|req.excerpt|]
    ensures req.excerpt == Excerpt(p.description.value)
  {
    EnhanceRequest(p.title, p.price, Excerpt(p.description.value))
  }

  /** `enhanceProductData(product)`: a copy of the product, every field unchanged, with
      `enhancedData` set. It never throws: a skipped product, a failed request and an
      unparsable answer all get the placeholder; otherwise the parsed answer is stored
      as it is. */
  function EnhanceProductData(p: Product, ai: AiBackend): (r: Product)
    ensures r == p.(enhancedData := r.enhancedData)
    ensures r.enhancedData.Some?
    ensures Incomplete(p) ==> r.enhancedData == Some(Placeholder)
    ensures !Incomplete(p) && ai.complete(RequestFor(p)).Err? ==> r.enhancedData == Some(Placeholder)
    ensures !Incomplete(p) && ai.complete(RequestFor(p)).Ok? ==>
              r.enhancedData == Some(
                match ai.parse(ai.complete(RequestFor(p)).value)
                case Some(j) => j
                case None => Placeholder)
  {
    if Incomplete(p) then
      p.(enhancedData := Some(Placeholder))
    else match ai.complete(RequestFor(p))
      case Err(_) => p.(enhancedData := Some(Placeholder))
      case Ok(content) =>
        var enhanced := match ai.parse(content)
          case Some(j) => j
          case None => Placeholder;
        p.(enhancedData := Some(enhanced))
  }

  /** A skipped product makes no request: its result is the same whatever the service
      would have answered. */
  lemma SkipMakesNoRequest(p: Product, ai1: AiBackend, ai2: AiBackend)
    requires Incomplete(p)
    ensures EnhanceProductData(p, ai1) == EnhanceProductData(p, ai2)
  {
  }

  /** The request sees only the first 1000 characters of the description, while the
      stored description is the whole text: two products that agree on title, price and
      those characters get the same `enhancedData`. */
  lemma OnlyExcerptReachesService(p: Product, q: Product, ai: AiBackend)
    requires !Incomplete(p) && !Incomplete(q)
    requires p.title == q.title && p.price == q.price
    requires Excerpt(p.description.value) == Excerpt(q.description.value)
    ensures EnhanceProductData(p, ai).enhancedData == EnhanceProductData(q, ai).enhancedData
    ensures EnhanceProductData(p, ai).description == p.description
  {
  }
}
