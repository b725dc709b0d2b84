/** Option and Result wrappers, and the failures that abort a run. */
module Outcome {

  datatype Option<+T> = None | Some(value: T)

  datatype Result<+T, +E> = Ok(value: T) | Err(error: E)

  /** The conditions under which the run builder stops with an exception. */
  datatype Failure =
    | MissingArticle(articleId: string)                // `tracking_data[article_id]` raises KeyError
    | MalformedReply(attempt: nat)                     // the reply did not parse: `response.sentences` on None
    | SentenceCountChanged(expected: nat, actual: nat) // `assert len(new_sentences) == len(sentences)` fails
}
