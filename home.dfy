/** The home page: the same display as the viewer page, without a caption. */
module Home {
  import opened Options
  import opened Js

  /** The waiting message is shown instead of the image exactly when the value is falsy. */
  function ShowsWaiting(currentImage: Option<string>): (r: bool)
    ensures r <==> currentImage == None || currentImage == Some("")
  {
    !Truthy(currentImage)
  }

  class HomePage {
    var currentImage: Option<string>
    var isConnected: bool

    /** The first render: nothing shown, disconnected. */
    constructor ()
      ensures currentImage == None && !isConnected
    {
      currentImage, isConnected := None, false;
    }

    method OnConnect()
      modifies this
      ensures isConnected && currentImage == old(currentImage)
    {
      isConnected := true;
    }

    method OnDisconnect()
      modifies this
      ensures !isConnected && currentImage == old(currentImage)
    {
      isConnected := false;
    }

    method OnImageChanged(u: Option<string>)
      modifies this
      ensures currentImage == u && isConnected == old(isConnected)
    {
      currentImage := u;
    }
  }
}
