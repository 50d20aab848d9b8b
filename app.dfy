/**
 * The root component's state and event handlers (src/App.js). Each handler
 * takes the network's answer as a parameter, so one call models the whole
 * handler: the request it issues and the callback that runs on the answer.
 */
module AppController {
  import opened Wrappers
  import opened VideoCatalog

  class App {
    var modal: bool
    var videoList: seq<Video>
    var currentVideo: Option<Video>
    var currentPage: int

    /** The part of the state the response handlers replace. */
    function State(): Catalog
      reads this
    {
      Catalog(videoList, currentVideo)
    }

    /** The state at start-up, before the mount-time fetch answers. */
    constructor ()
      ensures !modal && videoList == [] && currentVideo == None && currentPage == 1
    {
      modal := false;
      videoList := [];
      currentVideo := None;
      currentPage := 1;
    }

    /** `fetchVideoList`, given the answer to `GET /api/videos`. */
    method FetchVideoList(resp: Response)
      modifies this
      ensures State() == AfterFetch(old(State()), resp)
      ensures modal == old(modal) && currentPage == old(currentPage)
    {
      if resp.Failure? {
        return;
      }
      var field := VideosOf(resp.data);
      if field.None? || !field.value.Array? {
        return;  // `data.videos.map` throws; the catch only logs
      }
      var videoUrls := MapRecords(field.value.records);
      videoList := videoUrls;
      if |videoUrls| > 0 {
        currentVideo := Some(videoUrls[0]);
      }
    }

    /** `handleSearch`, given the answer to the request whose path it returns. */
    method HandleSearch(searchQuery: string, resp: Response) returns (url: string)
      modifies this
      ensures url == Origin + SearchPath(searchQuery)
      ensures State() == AfterSearch(old(State()), searchQuery, resp)
      ensures modal == old(modal) && currentPage == old(currentPage)
    {
      url := if searchQuery != "" then Origin + SearchPrefix + searchQuery else Origin + ListPath;
      if resp.Failure? {
        return;
      }
      var list: Option<JsValue> := if searchQuery != "" then Some(resp.data) else VideosOf(resp.data);
      if list.None? {
        return;  // `data.videos` on null throws; the catch only logs
      }
      if list.value.Array? {
        var videoUrls := MapRecords(list.value.records);
        videoList := videoUrls;
        if |videoUrls| > 0 {
          currentVideo := Some(videoUrls[0]);
        } else {
          currentVideo := None;
        }
      } else {
        videoList := [];
        currentVideo := None;
      }
    }

    /** `handleVideoClick`: selects a title and changes nothing else. */
    method HandleVideoClick(video: Video)
      modifies this
      ensures currentVideo == Some(video)
      ensures videoList == old(videoList) && currentPage == old(currentPage) && modal == old(modal)
    {
      currentVideo := Some(video);
    }

    /** `handlePageChange`: stores the page as given, without clamping. */
    method HandlePageChange(page: int)
      modifies this
      ensures currentPage == page
      ensures State() == old(State()) && modal == old(modal)
    {
      currentPage := page;
    }

    /** The Upload button's click handler. */
    method OpenUpload()
      modifies this
      ensures modal
      ensures State() == old(State()) && currentPage == old(currentPage)
    {
      modal := true;
    }

    /**
     * `handleUploadClose`: hides the form, and refetches the list (whose
     * answer is `refetch`) exactly when the upload succeeded.
     */
    method HandleUploadClose(isUploaded: bool, refetch: Response) returns (refetched: bool)
      modifies this
      ensures !modal
      ensures refetched == isUploaded
      ensures State() == if isUploaded then AfterFetch(old(State()), refetch) else old(State())
      ensures currentPage == old(currentPage)
    {
      modal := false;
      refetched := isUploaded;
      if isUploaded {
        FetchVideoList(refetch);
      }
    }
  }
}
