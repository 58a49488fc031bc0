/** The request builder of `RxDownloader`: `getDefaultRequest` assembles the
    descriptor handed to the platform download engine from the caller's
    arguments and the library's defaults.  Preparing the destination folder
    (creating it, deleting a stale file of the same name) is filesystem I/O; the
    model receives the filesystem's answers as a `Storage` value and decides
    from them which `RuntimeException`, if any, is thrown. */
module Requests {
  import opened Wrappers

  /** MIME type used when the caller does not give one. */
  const DEFAULT_MIME_TYPE: string := "*/*"

  /** `Environment.DIRECTORY_DOWNLOADS`, the platform's standard download folder. */
  const DIRECTORY_DOWNLOADS: string := "Download"

  /** `DownloadManager.Request.VISIBILITY_VISIBLE` and
      `VISIBILITY_VISIBLE_NOTIFY_COMPLETED`. */
  datatype Visibility = Visible | VisibleNotifyCompleted

  /** Where the engine writes the file: `setDestinationInExternalPublicDir`
      or `setDestinationInExternalFilesDir`, each with a folder and a file name. */
  datatype Destination =
    | ExternalPublicDir(folder: string, fileName: string)
    | ExternalFilesDir(folder: string, fileName: string)

  /** `DownloadManager.Request` as `getDefaultRequest` fills it in. */
  datatype Request = Request(
    uri: string,
    title: string,
    description: string,
    mimeType: string,
    destination: Destination,
    visibility: Visibility)

  /** What the filesystem answers about the folder being prepared and about a
      file of the requested name inside it. */
  datatype Storage = Storage(
    folderExists: bool,
    canCreateFolder: bool,
    fileExists: bool,
    canDeleteFile: bool)

  /** The two `RuntimeException`s of the folder preparation. */
  datatype StorageError = CantCreateDirectory | CantDeleteFile

  /** `createFolderIfNeeded` followed by `removeDuplicateFileIfExist`: the
      exception thrown, or `None` when the folder is ready and holds no file
      of that name. */
  function PrepareFolder(st: Storage): (r: Option<StorageError>)
    ensures r == Some(CantCreateDirectory) <==> !st.folderExists && !st.canCreateFolder
    ensures r == Some(CantDeleteFile) <==>
              (st.folderExists || st.canCreateFolder) && st.fileExists && !st.canDeleteFile
    ensures r == None <==>
              (st.folderExists || st.canCreateFolder) && (!st.fileExists || st.canDeleteFile)
  {
    if !st.folderExists && !st.canCreateFolder then Some(CantCreateDirectory)
    else if st.fileExists && !st.canDeleteFile then Some(CantDeleteFile)
    else None
  }

  /** `getDefaultRequest`: a missing destination path means the Downloads
      folder; the notification stays visible after completion exactly when the
      caller asks for it; a failed folder preparation aborts the build. */
  function DefaultRequest(
    url: string,
    filename: string,
    destinationPath: Option<string>,
    mimeType: string,
    inPublicDir: bool,
    showCompletedNotification: bool,
    st: Storage): (r: Result<Request, StorageError>)
    ensures r.Err? <==> PrepareFolder(st).Some?
    ensures r.Err? ==> r.error == PrepareFolder(st).value
    ensures r.Ok? ==> r.value.uri == url
    ensures r.Ok? ==> r.value.title == filename && r.value.description == filename
    ensures r.Ok? ==> r.value.mimeType == mimeType
    ensures r.Ok? ==> r.value.destination.fileName == filename
    ensures r.Ok? ==> (r.value.destination.ExternalPublicDir? <==> inPublicDir)
    ensures r.Ok? && destinationPath.None? ==> r.value.destination.folder == DIRECTORY_DOWNLOADS
    ensures r.Ok? && destinationPath.Some? ==> r.value.destination.folder == destinationPath.value
    ensures r.Ok? ==> (r.value.visibility == VisibleNotifyCompleted <==> showCompletedNotification)
  {
    var folder := destinationPath.GetOr(DIRECTORY_DOWNLOADS);
    match PrepareFolder(st)
    case Some(e) => Err(e)
    case None =>
      Ok(Request(
        url, filename, filename, mimeType,
        if inPublicDir then ExternalPublicDir(folder, filename) else ExternalFilesDir(folder, filename),
        if showCompletedNotification then VisibleNotifyCompleted else Visible))
  }
}
