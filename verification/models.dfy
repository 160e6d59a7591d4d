/** The plain domain record the client builds from a listing. */
module Models {

  /** A playlist as the client returns it: four strings, identified by `id`. */
  datatype Playlist = Playlist(id: string, name: string, description: string, uri: string)
}
