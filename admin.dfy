/**
 * The admin page's local state and handlers: it publishes images through
 * its socket and shows whatever the server last broadcast.
 */
module Admin {
  import opened Options
  import opened Js

  /** "No image selected" is shown instead of the image exactly when the value is falsy. */
  function ShowsPlaceholder(currentImage: Option<string>): (r: bool)
    ensures r <==> currentImage == None || currentImage == Some("")
  {
    !Truthy(currentImage)
  }

  class AdminPage {
    var hasSocket: bool                // the `socket` state variable is non-null
    var currentImage: Option<string>
    var customImageUrl: string         // contents of the custom URL input
    var emitted: seq<string>           // "changeImage" payloads sent, in order

    /** The first render: no socket yet, nothing shown, an empty input. */
    constructor ()
      ensures !hasSocket && currentImage == None && customImageUrl == "" && emitted == []
    {
      hasSocket, currentImage, customImageUrl, emitted := false, None, "", [];
    }

    /** The mount effect stores the newly opened socket. */
    method Mount()
      modifies this
      ensures hasSocket
      ensures currentImage == old(currentImage) && customImageUrl == old(customImageUrl)
      ensures emitted == old(emitted)
    {
      hasSocket := true;
    }

    /** The "imageChanged" handler. */
    method OnImageChanged(u: Option<string>)
      modifies this
      ensures currentImage == u
      ensures hasSocket == old(hasSocket) && customImageUrl == old(customImageUrl)
      ensures emitted == old(emitted)
    {
      currentImage := u;
    }

    /** Typing into the custom URL input. */
    method EditCustomImageUrl(text: string)
      modifies this
      ensures customImageUrl == text
      ensures hasSocket == old(hasSocket) && currentImage == old(currentImage)
      ensures emitted == old(emitted)
    {
      customImageUrl := text;
    }

    /**
     * Publishes `url` when there is a socket and does nothing otherwise; a
     * click on a sample slide is this call with the slide's URL.
     */
    method ChangeImage(url: string)
      modifies this
      ensures emitted == if old(hasSocket) then old(emitted) + [url] else old(emitted)
      ensures hasSocket == old(hasSocket) && currentImage == old(currentImage)
      ensures customImageUrl == old(customImageUrl)
    {
      if hasSocket {
        emitted := emitted + [url];
      }
    }

    /**
     * "Show Image": publishes the trimmed input and empties the input when
     * the input is not blank; a blank input changes nothing. The input is
     * emptied even when there is no socket to publish through.
     */
    method HandleCustomImage()
      modifies this
      ensures Blank(old(customImageUrl)) ==>
                customImageUrl == old(customImageUrl) && emitted == old(emitted)
      ensures !Blank(old(customImageUrl)) ==>
                && customImageUrl == ""
                && emitted == (if old(hasSocket) then old(emitted) + [Trim(old(customImageUrl))] else old(emitted))
                && Trim(old(customImageUrl)) != ""
      ensures hasSocket == old(hasSocket) && currentImage == old(currentImage)
    {
      TrimEmptyIff(customImageUrl);
      var trimmed := Trim(customImageUrl);
      if trimmed != "" {
        ChangeImage(trimmed);
        customImageUrl := "";
      }
    }

    /** "Clear Display" publishes the empty string. */
    method ClearDisplay()
      modifies this
      ensures emitted == if old(hasSocket) then old(emitted) + [""] else old(emitted)
      ensures hasSocket == old(hasSocket) && currentImage == old(currentImage)
      ensures customImageUrl == old(customImageUrl)
    {
      ChangeImage("");
    }
  }
}
