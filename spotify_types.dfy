/** The records of `src/types/spotify.ts` that the modelled logic reads.
    Only the fields that some operation inspects or copies are kept. */
module SpotifyTypes {
  import opened Common

  /** `SpotifyImage`; the upstream API sends a null width for some images. */
  datatype Image = Image(url: string, height: Option<int>, width: Option<int>)

  /** `Artist`, as the routes return it. `kind` is the JSON `type` field. */
  datatype Artist = Artist(
    id: string,
    name: string,
    kind: string,
    images: seq<Image>,
    genres: seq<string>,
    followers: int,
    popularity: int,
    uri: string)

  /** `Partial<Artist>`: an artist object as it arrives inside a track, any
      field of which may be missing. `followersTotal` is
      `followers?.total`, missing when either level is. */
  datatype PartialArtist = PartialArtist(
    id: Option<string>,
    name: Option<string>,
    kind: Option<string>,
    images: Option<seq<Image>>,
    genres: Option<seq<string>>,
    followersTotal: Option<int>,
    popularity: Option<int>,
    uri: Option<string>)

  /** `Track`; its `artists` are the partial artist objects of the API. */
  datatype Track = Track(id: string, name: string, artists: seq<PartialArtist>, durationMs: int, uri: string)

  /** `Album['album_type']`: exactly three values. */
  datatype AlbumType = AlbumKind | Single | Compilation

  /** `Album`; `releaseTime` stands for `new Date(release_date).getTime()`. */
  datatype Album = Album(id: string, name: string, albumType: AlbumType, releaseTime: int)
}
