/** Videos and queue items, with the fields the room logic reads. */
module Video {
  import opened Util

  datatype VideoId = VideoId(service: string, id: string)

  /**
   A queue item. `length` is absent when the duration is unknown or not finite;
   `nativeMime` says whether an odysee item's mime type is one a native player handles.
   */
  datatype Item = Item(
    video: VideoId,
    length: Option<real>,
    isLive: bool,
    nativeMime: bool,
    startAt: Option<real>,
    endAt: Option<real>,
    subtitleUrl: Option<string>)
  {
    /** The same item without its trim. */
    function Untrimmed(): Item {
      this.(startAt := None, endAt := None)
    }

    /** The key of the vote map. */
    function VoteKey(): string {
      video.service + video.id
    }
  }
}
