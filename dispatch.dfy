/**
 * The assistant node: the last message of the conversation is classified,
 * then answered either from the top retrieved product block or by the
 * language model, and the answer is appended as one system message.
 * The retriever and the language model are parameters.
 */
module Dispatch {
  import opened Wrappers
  import opened PyStr
  import opened Catalog
  import opened Extractor
  import opened Intent
  import opened Formatter

  /** The key under which `modelo_llm` would hand the model's text to a template. */
  const ResponseKey := "response"

  const PromptLead := "Consulta: "
  const PromptTail := "\nResponde con claridad sobre la intención detectada."

  /** The text sent to the language model: the question between a fixed lead and a fixed request. */
  function Prompt(question: string): (r: string)
    ensures |r| == |PromptLead| + |question| + |PromptTail|
    ensures StartsWith(r, PromptLead) && OccursAt(r, question, |PromptLead|)
    ensures OccursAt(r, PromptTail, |PromptLead| + |question|)
  {
    PromptLead + question + PromptTail
  }

  /**
   * `modelo_llm`: the model is asked once; its text would go through the
   * formatter if the question's label were a template key, but no label is,
   * so the raw text is what comes back.
   */
  function ModeloLlm(question: string, llm: string -> string): (r: Result<string>)
    ensures r == Success(llm(Prompt(question)))
  {
    var intention := Classify(question);
    var response := llm(Prompt(question));
    LabelsAreNotTemplates();
    if intention in TemplateKeys then Respuesta(intention, Fields([(ResponseKey, response)]))
    else Success(response)
  }

  datatype Role = Human | System

  /** A conversation message; only its content is read. */
  datatype Message = Message(role: Role, content: string)

  /**
   * The answer `assistant` computes for a question: the parsed top document
   * for the three retrieval labels, the model's text otherwise.
   */
  function Answer(question: string, retriever: string -> seq<string>, llm: string -> string): (r: Payload)
    ensures Classify(question) != UnknownIntent ==> r == Fields(Extract(retriever(question)))
    ensures Classify(question) == UnknownIntent ==> r == Text(llm(Prompt(question)))
  {
    var intent := Classify(question);
    if intent == SearchProduct then Fields(Extract(retriever(question)))
    else if intent == ListCategories || intent == CheckPromotions then Fields(Extract(retriever(question)))
    else Text(ModeloLlm(question, llm).value)
  }

  /**
   * `assistant`: an empty conversation has no last message (IndexError);
   * otherwise the conversation comes back with one system message appended,
   * holding the printed answer to the last message's content.
   */
  function Assistant(messages: seq<Message>, retriever: string -> seq<string>, llm: string -> string)
    : (r: Result<seq<Message>>)
    ensures |messages| == 0 <==> r.Failure?
    ensures r.Failure? ==> r.error == IndexError
    ensures r.Success? ==> |r.value| == |messages| + 1 && r.value[..|messages|] == messages
    ensures r.Success? ==>
              r.value[|messages|] == Message(System, Str(Answer(messages[|messages| - 1].content, retriever, llm)))
  {
    if |messages| == 0 then
      Failure(IndexError)
    else
      var userMessage := messages[|messages| - 1].content;
      Success(messages + [Message(System, Str(Answer(userMessage, retriever, llm)))])
  }

  /** The reply depends on the last message only, not on the history before it. */
  lemma OnlyLastMessage(h1: seq<Message>, h2: seq<Message>, m: Message,
                        retriever: string -> seq<string>, llm: string -> string)
    ensures Assistant(h1 + [m], retriever, llm).Success?
    ensures Assistant(h2 + [m], retriever, llm).Success?
    ensures Assistant(h1 + [m], retriever, llm).value[|h1| + 1] ==
            Assistant(h2 + [m], retriever, llm).value[|h2| + 1]
  {
    assert (h1 + [m])[|h1|] == m;
    assert (h2 + [m])[|h2|] == m;
  }

  /** A question with a keyword never reaches the model: any two models give the same conversation. */
  lemma RetrievalIgnoresModel(messages: seq<Message>, retriever: string -> seq<string>,
                              llm1: string -> string, llm2: string -> string)
    requires |messages| > 0 && Classify(messages[|messages| - 1].content) != UnknownIntent
    ensures Assistant(messages, retriever, llm1) == Assistant(messages, retriever, llm2)
  {
  }

  /** A question without a keyword never reaches the retriever, and gets the model's raw text. */
  lemma ModelIgnoresRetriever(messages: seq<Message>, retriever1: string -> seq<string>,
                              retriever2: string -> seq<string>, llm: string -> string)
    requires |messages| > 0 && Classify(messages[|messages| - 1].content) == UnknownIntent
    ensures Assistant(messages, retriever1, llm) == Assistant(messages, retriever2, llm)
    ensures Assistant(messages, retriever1, llm).value[|messages|].content ==
            llm(Prompt(messages[|messages| - 1].content))
  {
  }

  /** When nothing is retrieved the system message is the empty dict, `{}`. */
  lemma NothingRetrieved(messages: seq<Message>, retriever: string -> seq<string>, llm: string -> string)
    requires |messages| > 0
    requires Classify(messages[|messages| - 1].content) != UnknownIntent
    requires retriever(messages[|messages| - 1].content) == []
    ensures Assistant(messages, retriever, llm).value[|messages|].content == "{}"
  {
  }

  /**
   * End to end: when the top document for a product question is the block of
   * a product with clean fields, the system message prints that product's
   * four fields, sentinels included, in block order.
   */
  lemma CatalogAnswer(messages: seq<Message>, retriever: string -> seq<string>, llm: string -> string,
                      p: Product)
    requires |messages| > 0
    requires Classify(messages[|messages| - 1].content) != UnknownIntent
    requires var docs := retriever(messages[|messages| - 1].content); |docs| > 0 && docs[0] == Serialize(p)
    requires Clean(NameOf(p), ProductTag) && Clean(PriceOf(p), PriceTag)
    requires Clean(DescriptionOf(p), DescriptionTag) && Clean(CategoriesText(p), CategoriesTag)
    ensures Assistant(messages, retriever, llm).value[|messages|].content ==
            Repr([(NameKey, NameOf(p)), (PriceKey, PriceOf(p)),
                  (DescriptionKey, DescriptionOf(p)), (CategoriesKey, CategoriesText(p))])
  {
    RoundTrip(p);
  }
}
