/**
 * The viewer page: a connection indicator and the image the server last
 * broadcast, with a caption naming it.
 */
module Viewer {
  import opened Options
  import opened Js

  /** Longest caption text shown before it is cut. */
  const CaptionLimit := 60

  /** The waiting message is shown instead of the image exactly when the value is falsy. */
  function ShowsWaiting(currentImage: Option<string>): (r: bool)
    ensures r <==> currentImage == None || currentImage == Some("")
  {
    !Truthy(currentImage)
  }

  /** The caption text for `u`: at most 60 characters of it, followed by "..." when cut. */
  function Caption(u: string): (r: string)
    ensures |r| == if |u| <= CaptionLimit then |u| else CaptionLimit + 3
    ensures |r| <= CaptionLimit + 3
    ensures |u| <= CaptionLimit ==> r == u
    ensures |u| > CaptionLimit ==> r[..CaptionLimit] == u[..CaptionLimit] && r[CaptionLimit..] == "..."
  {
    if |u| > CaptionLimit then u[..CaptionLimit] + "..." else u
  }

  /** The caption bar is rendered, with `Caption` of the image, exactly when the image is shown. */
  function CaptionBar(currentImage: Option<string>): (r: Option<string>)
    ensures r.Some? <==> !ShowsWaiting(currentImage)
    ensures r.Some? ==> currentImage.Some? && r.value == Caption(currentImage.value)
  {
    if Truthy(currentImage) then Some(Caption(currentImage.value)) else None
  }

  /** Every caption starts with as much of the image's name as fits. */
  lemma CaptionKeepsPrefix(u: string)
    ensures var n := if |u| <= CaptionLimit then |u| else CaptionLimit;
      Caption(u)[..n] == u[..n]
  {
  }

  class ViewerPage {
    var currentImage: Option<string>
    var isConnected: bool

    /** The first render: nothing shown, disconnected. */
    constructor ()
      ensures currentImage == None && !isConnected
    {
      currentImage, isConnected := None, false;
    }

    method OnConnect()
      modifies this
      ensures isConnected && currentImage == old(currentImage)
    {
      isConnected := true;
    }

    method OnDisconnect()
      modifies this
      ensures !isConnected && currentImage == old(currentImage)
    {
      isConnected := false;
    }

    method OnImageChanged(u: Option<string>)
      modifies this
      ensures currentImage == u && isConnected == old(isConnected)
    {
      currentImage := u;
    }
  }
}
