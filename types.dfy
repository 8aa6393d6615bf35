/** The records shared by the parser, the pipeline and the preview (src/types/index.ts). */
module Types {

  datatype Option<T> = None | Some(value: T)

  /** A computation that either yields a value or fails with an error message (a thrown `Error`). */
  datatype Result<T> = Ok(value: T) | Err(message: string)

  /** JavaScript truthiness of an optional string: present and not empty. */
  predicate Truthy(s: Option<string>) {
    s.Some? && s.value != ""
  }

  /** One unit of input content to be turned into a post. */
  datatype Brief = Brief(id: string, content: string)

  /** The three values of `GeneratedPost.status`: 'pending', 'generated' and 'error'. */
  datatype PostStatus = Pending | Generated | Error

  /** One record of a batch; `error` is set only once the record has failed. */
  datatype GeneratedPost = GeneratedPost(
    id: string,
    brief: string,
    content: string,
    status: PostStatus,
    error: Option<string>)
}
