/**
 * The media host behind `uploadOnCloudinary` (src/utils/cloudinary.js),
 * reduced to its interface: a falsy path is refused without contacting the
 * host; any other path is uploaded and the host answers with a URL or with
 * nothing. The host's answers are a fixed function of the path, and every
 * path actually sent is recorded.
 */
module Cloudinary {
  import opened Wrappers
  import opened JsStrings

  class MediaHost {
    /** The host's answer for a local file: its URL, or `None` when the upload fails. */
    const respond: string -> Option<string>
    /** Every local path sent to the host, in order. */
    var uploads: seq<string>

    constructor (respond: string -> Option<string>)
      ensures this.respond == respond && uploads == []
    {
      this.respond := respond;
      uploads := [];
    }

    /** `uploadOnCloudinary(localFilePath)`, returning the uploaded file's URL or null. */
    method UploadOnCloudinary(localFilePath: Option<string>) returns (url: Option<string>)
      modifies this
      ensures !Truthy(localFilePath) ==> url == None && uploads == old(uploads)
      ensures Truthy(localFilePath) ==> url == respond(localFilePath.value) && uploads == old(uploads) + [localFilePath.value]
    {
      if !Truthy(localFilePath) {
        return None;
      }
      uploads := uploads + [localFilePath.value];
      url := respond(localFilePath.value);
    }
  }
}
