/**
 * The records the backend sends: folders, documents and breadcrumb
 * entries, with their optional fields as `Option`.
 */
module Types {
  import opened Common

  datatype VersionAttribute = VersionAttribute(id: int, value: string)

  datatype Folder = Folder(id: int, name: string, comment: Option<string>, date: string)

  datatype Document = Document(
    id: int,
    name: string,
    date: string,
    comment: Option<string>,
    keywords: Option<string>,
    ownerid: int,
    islocked: bool,
    sequence: string,
    expires: Option<string>,
    mimetype: string,
    version: int,
    versionComment: Option<string>,
    versionDate: string,
    size: int,
    versionAttributes: seq<VersionAttribute>)

  /** One child of a folder listing: `type: 'folder'` or `type: 'document'`. */
  datatype Entry = FolderEntry(folder: Folder) | DocumentEntry(document: Document) {
    function Id(): int {
      match this
      case FolderEntry(f) => f.id
      case DocumentEntry(d) => d.id
    }
    function Name(): string {
      match this
      case FolderEntry(f) => f.name
      case DocumentEntry(d) => d.name
    }
  }
}
