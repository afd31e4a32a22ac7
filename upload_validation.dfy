/**
 * Upload validation: a file larger than the configured maximum is refused,
 * then a file whose content type is not allowed; any other file is accepted
 * as it is. The maximum and the allowed types are parameters; the deployed
 * settings are the constants below.
 */
module UploadValidation {
  import opened Text

  /** The uploaded file, as far as validation reads it. */
  datatype UploadedFile = UploadedFile(name: string, size: nat, contentType: string)

  datatype ValidationError = ValidationError(message: string)

  const MiB: nat := 1024 * 1024
  /** The deployed maximum upload size, 50 MiB. */
  const MaxUploadSize: nat := 50 * MiB
  /** The deployed allowed content types. */
  const AllowedDocumentTypes: seq<string> := ["application/pdf"]

  /** The size message: the limit in whole mebibytes, rounded down. */
  function SizeMessage(maxUploadSize: nat): string {
    "File size exceeds the " + NatToString(maxUploadSize / MiB) + " MB limit."
  }

  /** The type message: the rejected type and the allowed ones, comma separated. */
  function TypeMessage(contentType: string, allowed: seq<string>): string {
    "Unsupported file type '" + contentType + "'. Allowed: " + Join(", ", allowed)
  }

  /** `validate_file`. */
  function ValidateFile(value: UploadedFile, maxUploadSize: nat, allowed: seq<string>)
    : (r: Result<UploadedFile, ValidationError>)
    ensures r.Ok? <==> value.size <= maxUploadSize && value.contentType in allowed
    ensures r.Ok? ==> r.value == value
    ensures value.size > maxUploadSize ==> r == Err(ValidationError(SizeMessage(maxUploadSize)))
    ensures value.size <= maxUploadSize && value.contentType !in allowed ==>
      r == Err(ValidationError(TypeMessage(value.contentType, allowed)))
  {
    if value.size > maxUploadSize then Err(ValidationError(SizeMessage(maxUploadSize)))
    else if value.contentType !in allowed then Err(ValidationError(TypeMessage(value.contentType, allowed)))
    else Ok(value)
  }

  /** The limit is inclusive, and acceptance does not depend on a smaller file
      being larger: shrinking an accepted file keeps it accepted, growing a
      file rejected for its size keeps it rejected with the same message. */
  lemma SizeLimitMonotone(value: UploadedFile, size: nat, maxUploadSize: nat, allowed: seq<string>)
    ensures ValidateFile(value, maxUploadSize, allowed).Ok? && size <= value.size ==>
      ValidateFile(value.(size := size), maxUploadSize, allowed).Ok?
    ensures value.size > maxUploadSize && size >= value.size ==>
      ValidateFile(value.(size := size), maxUploadSize, allowed) == ValidateFile(value, maxUploadSize, allowed)
    ensures value.contentType in allowed ==>
      ValidateFile(value.(size := maxUploadSize), maxUploadSize, allowed).Ok?
  {
  }

  /** With the deployed settings a 50 MiB PDF is accepted, and one byte more
      is refused with "50 MB" whatever its type. */
  lemma DeployedSizeLimit(name: string, contentType: string)
    ensures ValidateFile(UploadedFile(name, MaxUploadSize, "application/pdf"), MaxUploadSize, AllowedDocumentTypes).Ok?
    ensures ValidateFile(UploadedFile(name, MaxUploadSize + 1, contentType), MaxUploadSize, AllowedDocumentTypes)
      == Err(ValidationError("File size exceeds the 50 MB limit."))
  {
    assert MaxUploadSize / MiB == 50;
    assert NatToString(50) == "50" by {
      assert NatToString(5) == "5";
    }
    var prefixed := "File size exceeds the " + "50";
    assert prefixed == "File size exceeds the 50";
    assert prefixed + " MB limit." == "File size exceeds the 50 MB limit.";
  }

  /** With the deployed settings a Word file within the limit is refused,
      naming the one allowed type. */
  lemma DeployedTypeCheck(name: string)
    ensures ValidateFile(UploadedFile(name, 1, "application/msword"), MaxUploadSize, AllowedDocumentTypes)
      == Err(ValidationError("Unsupported file type 'application/msword'. Allowed: application/pdf"))
  {
    assert "application/msword" !in AllowedDocumentTypes by {
      assert |"application/msword"| != |AllowedDocumentTypes[0]|;
    }
    assert Join(", ", AllowedDocumentTypes) == "application/pdf";
    var quoted := "Unsupported file type '" + "application/msword";
    assert quoted == "Unsupported file type 'application/msword";
    var labelled := quoted + "'. Allowed: ";
    assert labelled == "Unsupported file type 'application/msword'. Allowed: ";
    assert labelled + "application/pdf" == "Unsupported file type 'application/msword'. Allowed: application/pdf";
  }
}
