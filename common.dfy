/**
 * The song records of mart_music/common.py and the decoding of a search
 * response into them.
 */
module Common {
  import opened Wrappers

  /** Additional information on a song, keyed by name. */
  type Info = map<string, string>

  /** A song as the API describes it. */
  datatype Song = Song(
    title: string,
    artist: string,
    path: string,          // where the song is downloaded from on the API
    downloadable: bool,    // false when only the raw `url` can be used
    url: Option<string>,
    source: string,        // the website the song comes from
    info: Option<Info>)

  /** One element of a response's result list, by its keys; an absent optional key is None. */
  datatype Item = Item(
    title: string,
    artist: string,
    dlPath: string,
    downloadable: bool,
    source: string,
    url: Option<string>,
    info: Option<Info>)

  /** A decoded search response: its success flag, its error message and its results. */
  datatype Payload = Payload(success: bool, error: string, result: seq<Item>)

  /** Raised when the API reports that a request did not succeed. */
  datatype APIException = APIException(message: string)

  /** `Song(...)`: `dl_path` becomes the song's path; `url` and `info` default to None. */
  function NewSong(title: string, artist: string, dlPath: string, downloadable: bool, source: string,
                   url: Option<string> := None, info: Option<Info> := None): (s: Song)
    ensures s.title == title && s.artist == artist && s.path == dlPath
    ensures s.downloadable == downloadable && s.source == source
    ensures s.url == url && s.info == info
  {
    Song(title, artist, dlPath, downloadable, url, source, info)
  }

  /** `Song(**item)`. */
  function SongOf(item: Item): (s: Song)
    ensures s.title == item.title && s.artist == item.artist && s.path == item.dlPath
    ensures s.downloadable == item.downloadable && s.source == item.source
    ensures s.url == item.url && s.info == item.info
    ensures ItemOf(s) == item
  {
    NewSong(item.title, item.artist, item.dlPath, item.downloadable, item.source, item.url, item.info)
  }

  /** The result item a song was built from. */
  function ItemOf(s: Song): Item
  {
    Item(s.title, s.artist, s.path, s.downloadable, s.source, s.url, s.info)
  }

  /** An item given without `url` and `info` yields a song with neither. */
  lemma NewSongDefaults(title: string, artist: string, dlPath: string, downloadable: bool, source: string)
    ensures NewSong(title, artist, dlPath, downloadable, source).url == None
    ensures NewSong(title, artist, dlPath, downloadable, source).info == None
  {
  }

  /** Building a song loses nothing of its item, and every song is built from some item. */
  lemma SongItemRoundTrip(item: Item, s: Song)
    ensures ItemOf(SongOf(item)) == item
    ensures SongOf(ItemOf(s)) == s
  {
  }

  /** `_parse_songs`: raise the response's error unless it succeeded, else one song per result. */
  function ParseSongs(data: Payload): (r: Result<seq<Song>, APIException>)
    ensures r.Failure? <==> !data.success
    ensures r.Failure? ==> r.error == APIException(data.error)
    ensures r.Success? ==> |r.value| == |data.result|
    ensures r.Success? ==> forall i :: 0 <= i < |data.result| ==> r.value[i] == SongOf(data.result[i])
  {
    if !data.success then Failure(APIException(data.error))
    else Success(seq(|data.result|, i requires 0 <= i < |data.result| => SongOf(data.result[i])))
  }

  /** The items the songs were built from, in order. */
  function ItemsOf(songs: seq<Song>): (items: seq<Item>)
    ensures |items| == |songs|
    ensures forall i :: 0 <= i < |songs| ==> items[i] == ItemOf(songs[i])
  {
    seq(|songs|, i requires 0 <= i < |songs| => ItemOf(songs[i]))
  }

  /** A successful parse gives back exactly the response's results, in their order. */
  lemma ParseSongsLossless(data: Payload)
    requires data.success
    ensures ItemsOf(ParseSongs(data).value) == data.result
  {
  }

  /** Parsing a response whose results are split in two gives the two parses, concatenated. */
  lemma ParseSongsAppend(error: string, a: seq<Item>, b: seq<Item>)
    ensures ParseSongs(Payload(true, error, a + b)).value
         == ParseSongs(Payload(true, error, a)).value + ParseSongs(Payload(true, error, b)).value
  {
  }
}
