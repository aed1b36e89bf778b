/** Identities of shares and links (files and folders) in the remote drive. */
module Links {

  datatype ShareId = ShareId(userId: string, id: string)

  datatype FileId = FileId(shareId: ShareId, id: string)

  datatype FolderId = FolderId(shareId: ShareId, id: string)

  /** A link is either a file or a folder; the sealed `LinkId` of the source. */
  datatype LinkId = File(fileId: FileId) | Folder(folderId: FolderId)
}
