/**
 * The file endpoints of the backend, all behind the authentication
 * middleware and scoped to the authenticated vault: the upload filter, the
 * PDF upload with its compression fallback, note creation, the single-file
 * projection, the update record of `PUT` and the delete rule. The `files`
 * table is a map keyed by `file_id` and the `pdfs` bucket a map from object
 * name to contents; ids, clocks, the compressor's answer and database errors
 * are parameters.
 */
module FileRoutes {
  import opened Wrappers
  import opened JsText
  import PdfCompress

  type Bytes = PdfCompress.Bytes

  /** The 50 MiB `fileSize` limit given to multer. */
  const MaxUploadSize := 50 * 1024 * 1024

  datatype FileType = Note | Pdf

  /** A row of the `files` table. */
  datatype FileRow = FileRow(
    fileId: string,
    vaultId: string,
    fileType: FileType,
    title: string,
    content: Option<string>,
    filePath: Option<string>,
    originalSize: Option<int>,
    compressedSize: Option<int>,
    createdAt: string,
    updatedAt: string)

  /** The columns of `FILE_LIST_COLS`. */
  datatype ListedFile = ListedFile(
    fileId: string,
    fileType: FileType,
    title: string,
    originalSize: Option<int>,
    compressedSize: Option<int>,
    createdAt: string,
    updatedAt: string)

  /** A row as selected with `FILE_LIST_COLS`. */
  function Listed(row: FileRow): (l: ListedFile)
    ensures l.fileId == row.fileId && l.fileType == row.fileType && l.title == row.title
    ensures l.originalSize == row.originalSize && l.compressedSize == row.compressedSize
    ensures l.createdAt == row.createdAt && l.updatedAt == row.updatedAt
  {
    ListedFile(row.fileId, row.fileType, row.title, row.originalSize, row.compressedSize,
               row.createdAt, row.updatedAt)
  }

  /** An uploaded file as multer hands it over (`req.file`); its `size` is the length of `buffer`. */
  datatype Upload = Upload(originalname: string, mimetype: string, buffer: Bytes)

  /** What multer does with an upload before the route handler runs. */
  datatype FilterVerdict = Accepted | NotPdf | TooLarge

  /** The upload filter: the mimetype test of `fileFilter`, then the size limit. */
  function MulterVerdict(u: Upload): (v: FilterVerdict)
    ensures v == Accepted <==> u.mimetype == "application/pdf" && |u.buffer| <= 52428800
    ensures u.mimetype != "application/pdf" ==> v == NotPdf
  {
    if u.mimetype != "application/pdf" then NotPdf
    else if |u.buffer| > MaxUploadSize then TooLarge
    else Accepted
  }

  /** The answer of a handler. */
  datatype Reply =
    | Failure(status: int, error: string)
    | ToErrorHandler(message: string)  // multer's error, passed to express's error handler
    | FileReply(file: ListedFile)
    | RowReply(row: FileRow)
    | Success

  /** The title of an uploaded PDF: `req.body.title || req.file.originalname || 'Untitled.pdf'`. */
  function PdfTitle(bodyTitle: Option<string>, originalname: string): (t: string)
    ensures t != ""
    ensures Truthy(bodyTitle) ==> t == bodyTitle.value
    ensures !Truthy(bodyTitle) && originalname != "" ==> t == originalname
    ensures !Truthy(bodyTitle) && originalname == "" ==> t == "Untitled.pdf"
  {
    if Truthy(bodyTitle) then bodyTitle.value
    else if originalname != "" then originalname
    else "Untitled.pdf"
  }

  /** The title of a new note: `title || 'Untitled'`. */
  function NoteTitle(title: Option<string>): (t: string)
    ensures t != ""
    ensures Truthy(title) ==> t == title.value
    ensures !Truthy(title) ==> t == "Untitled"
  {
    if Truthy(title) then title.value else "Untitled"
  }

  /** The row `GET`, `PUT` and `DELETE` look up: `file_id` matches and it belongs to the vault. */
  predicate Owned(files: map<string, FileRow>, vaultId: string, fileId: string) {
    fileId in files && files[fileId].vaultId == vaultId
  }

  /** The row after `update(updates)`: the keys of the record are the columns that change. */
  function ApplyUpdates(row: FileRow, updates: map<string, string>): FileRow {
    var r := if "updated_at" in updates then row.(updatedAt := updates["updated_at"]) else row;
    var r := if "title" in updates then r.(title := updates["title"]) else r;
    if "content" in updates then r.(content := Some(updates["content"])) else r
  }

  /**
   * The updated row `PUT` specifies: always a new `updated_at`, the title when
   * one was given, the content when one was given and the file is a note.
   */
  function Updated(row: FileRow, title: Option<string>, content: Option<string>, now: string): (r: FileRow)
    ensures r.updatedAt == now
    ensures r.title == if title.Some? then title.value else row.title
    ensures r.content == if content.Some? && row.fileType == Note then content else row.content
    ensures r.(updatedAt := row.updatedAt, title := row.title, content := row.content) == row
  {
    row.(updatedAt := now, title := title.GetOr(row.title),
         content := if content.Some? && row.fileType == Note then content else row.content)
  }

  /** A PDF's content is never changed by `PUT`, whatever the request carries. */
  lemma PdfContentUnchanged(row: FileRow, title: Option<string>, content: Option<string>, now: string)
    requires row.fileType == Pdf
    ensures Updated(row, title, content, now).content == row.content
    ensures Updated(row, title, content, now).filePath == row.filePath
  {
  }

  /** The `updates` record of `PUT /:fileId`, built field by field. */
  method BuildUpdates(title: Option<string>, content: Option<string>, fileType: FileType, now: string)
    returns (updates: map<string, string>)
    ensures updates.Keys <= {"updated_at", "title", "content"}
    ensures "updated_at" in updates && updates["updated_at"] == now
    ensures "title" in updates <==> title.Some?
    ensures title.Some? ==> updates["title"] == title.value
    ensures "content" in updates <==> content.Some? && fileType == Note
    ensures "content" in updates ==> updates["content"] == content.value
  {
    updates := map["updated_at" := now];
    if title.Some? {
      updates := updates["title" := title.value];
    }
    if content.Some? && fileType == Note {
      updates := updates["content" := content.value];
    }
  }

  /** Applying the record `BuildUpdates` describes gives the `Updated` row. */
  lemma UpdatesMeetSpecification(row: FileRow, title: Option<string>, content: Option<string>, now: string,
                                 updates: map<string, string>)
    requires "updated_at" in updates && updates["updated_at"] == now
    requires "title" in updates <==> title.Some?
    requires title.Some? ==> updates["title"] == title.value
    requires "content" in updates <==> content.Some? && row.fileType == Note
    requires "content" in updates ==> updates["content"] == content.value
    ensures ApplyUpdates(row, updates) == Updated(row, title, content, now)
  {
  }

  class FileStore {
    var files: map<string, FileRow>
    var bucket: map<string, Bytes>

    constructor (files: map<string, FileRow>, bucket: map<string, Bytes>)
      ensures this.files == files && this.bucket == bucket
    {
      this.files := files;
      this.bucket := bucket;
    }

    /**
     * `POST /pdf`. `compressed` is what `compressPDF` returned (None where it
     * threw); `storageError` and `dbError` are the answers of the upload and the insert.
     */
    method UploadPdf(vaultId: string, file: Option<Upload>, bodyTitle: Option<string>, fileId: string,
                     now: string, compressed: Option<Bytes>, storageError: Option<string>,
                     dbError: Option<string>)
      returns (reply: Reply)
      requires fileId !in files
      modifies this
      ensures file.None? ==> reply == Failure(400, "No file uploaded")
      ensures file.Some? && MulterVerdict(file.value) == NotPdf ==> reply == ToErrorHandler("Only PDF files are allowed")
      ensures file.Some? && MulterVerdict(file.value) == TooLarge ==> reply == ToErrorHandler("File too large")
      ensures file.Some? && MulterVerdict(file.value) == Accepted ==>
        var u := file.value;
        var path := fileId + ".pdf";
        var stored := if compressed.Some? then compressed.value else u.buffer;
        var row := FileRow(fileId, vaultId, Pdf, PdfTitle(bodyTitle, u.originalname), None, Some(path),
                           Some(|u.buffer|), Some(|stored|), now, now);
        && (storageError.Some? ==>
              reply == Failure(500, storageError.value) && bucket == old(bucket) && files == old(files))
        && (storageError.None? ==> bucket == old(bucket)[path := stored])
        && (storageError.None? && dbError.Some? ==> reply == Failure(500, dbError.value) && files == old(files))
        && (storageError.None? && dbError.None? ==> reply == FileReply(Listed(row)) && files == old(files)[fileId := row])
      ensures !(file.Some? && MulterVerdict(file.value) == Accepted && storageError.None?) ==>
        bucket == old(bucket) && files == old(files)
    {
      if file.Some? {
        var verdict := MulterVerdict(file.value);
        if verdict == NotPdf {
          return ToErrorHandler("Only PDF files are allowed");
        } else if verdict == TooLarge {
          return ToErrorHandler("File too large");
        }
      }
      if file.None? {
        return Failure(400, "No file uploaded");
      }
      var u := file.value;
      var originalSize := |u.buffer|;
      var fileName := fileId + ".pdf";
      var compressedBuffer: Bytes;
      if compressed.Some? {
        compressedBuffer := compressed.value;
      } else {
        compressedBuffer := u.buffer;
      }
      if storageError.Some? {
        return Failure(500, storageError.value);
      }
      bucket := bucket[fileName := compressedBuffer];
      var compressedSize := |compressedBuffer|;
      var title := PdfTitle(bodyTitle, u.originalname);
      if dbError.Some? {
        return Failure(500, dbError.value);
      }
      var row := FileRow(fileId, vaultId, Pdf, title, None, Some(fileName),
                         Some(originalSize), Some(compressedSize), now, now);
      files := files[fileId := row];
      reply := FileReply(Listed(row));
    }

    /** `POST /note`: a note titled `title || 'Untitled'` with empty content. */
    method CreateNote(vaultId: string, title: Option<string>, fileId: string, now: string,
                      insertError: Option<string>)
      returns (reply: Reply)
      requires fileId !in files
      modifies this`files
      ensures insertError.Some? ==> reply == Failure(500, insertError.value) && files == old(files)
      ensures insertError.None? ==>
        var row := FileRow(fileId, vaultId, Note, NoteTitle(title), Some(""), None, None, None, now, now);
        files == old(files)[fileId := row] && reply == FileReply(Listed(row))
    {
      if insertError.Some? {
        return Failure(500, insertError.value);
      }
      var row := FileRow(fileId, vaultId, Note, NoteTitle(title), Some(""), None, None, None, now, now);
      files := files[fileId := row];
      reply := FileReply(Listed(row));
    }

    /** `GET /:fileId`: 404 outside the vault, the whole row of a note, the listed columns of a PDF. */
    method GetFile(vaultId: string, fileId: string) returns (reply: Reply)
      ensures !Owned(files, vaultId, fileId) <==> reply == Failure(404, "File not found")
      ensures Owned(files, vaultId, fileId) && files[fileId].fileType == Note ==> reply == RowReply(files[fileId])
      ensures Owned(files, vaultId, fileId) && files[fileId].fileType == Pdf ==> reply == FileReply(Listed(files[fileId]))
    {
      if !(fileId in files && files[fileId].vaultId == vaultId) {
        return Failure(404, "File not found");
      }
      var file := files[fileId];
      if file.fileType == Note {
        reply := RowReply(file);
      } else {
        reply := FileReply(Listed(file));
      }
    }

    /** `PUT /:fileId`: 404 outside the vault, otherwise the `Updated` row and its listed columns. */
    method PutFile(vaultId: string, fileId: string, title: Option<string>, content: Option<string>, now: string)
      returns (reply: Reply)
      modifies this`files
      ensures !Owned(old(files), vaultId, fileId) ==> reply == Failure(404, "File not found") && files == old(files)
      ensures Owned(old(files), vaultId, fileId) ==>
        var row := Updated(old(files)[fileId], title, content, now);
        files == old(files)[fileId := row] && reply == FileReply(Listed(row))
    {
      if !(fileId in files && files[fileId].vaultId == vaultId) {
        return Failure(404, "File not found");
      }
      var file := files[fileId];
      var updates := BuildUpdates(title, content, file.fileType, now);
      UpdatesMeetSpecification(file, title, content, now, updates);
      var row := ApplyUpdates(file, updates);
      files := files[fileId := row];
      reply := FileReply(Listed(row));
    }

    /** `DELETE /:fileId`: 404 outside the vault; the stored PDF is removed only for a PDF with a path. */
    method DeleteFile(vaultId: string, fileId: string) returns (reply: Reply)
      modifies this
      ensures !Owned(old(files), vaultId, fileId) ==>
        reply == Failure(404, "File not found") && files == old(files) && bucket == old(bucket)
      ensures Owned(old(files), vaultId, fileId) ==>
        var row := old(files)[fileId];
        && reply == Success
        && files == old(files) - {fileId}
        && bucket == if row.fileType == Pdf && Truthy(row.filePath) then old(bucket) - {row.filePath.value} else old(bucket)
    {
      if !(fileId in files && files[fileId].vaultId == vaultId) {
        return Failure(404, "File not found");
      }
      var file := files[fileId];
      if file.fileType == Pdf && file.filePath.Some? && file.filePath.value != "" {
        bucket := bucket - {file.filePath.value};
      }
      files := files - {fileId};
      reply := Success;
    }
  }
}
