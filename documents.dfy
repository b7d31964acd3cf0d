/**
 * The resource document that uploaded content attaches to, reduced to the
 * attributes the upload endpoint reads or changes.
 */
module Documents {
  import opened Php

  const TYPE_COLLECTION: string := "collection"
  const STATUS_NORMAL: string := "normal"
  const STATUS_PROCESSING: string := "processing"

  /** One stored or referenced representation of the resource's media. */
  datatype ContentItem = ContentItem(downloadUri: string, mimeType: string, representation: string)

  /** A snapshot of a resource. `content` is `None` while the document has no
      content collection at all, `Some([])` for a fresh, empty collection. */
  datatype ResourceState = ResourceState(
    deleted: bool,
    resourceType: string,
    sequence: Value,
    status: string,
    content: Option<seq<ContentItem>>)

  /** The loaded document; the endpoint changes its content (and, through the
      content handlers, its status) in place. */
  class Resource {
    var deleted: bool
    var resourceType: string
    var sequence: Value
    var status: string
    var content: Option<seq<ContentItem>>

    function State(): ResourceState
      reads this
    {
      ResourceState(deleted, resourceType, sequence, status, content)
    }
  }
}
