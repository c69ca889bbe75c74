/** The backend's non-owning linear view into a buffer's storage, reduced
    to what the addressing layer uses of it: a base offset that can be
    moved forward, and element access at a linear offset from that base.
    The buffer the offsets refer to is the one the view was derived from;
    like the backend, this layer does not record or check it. */
module Storage {

  datatype LinearView = LinearView(base: int) {

    /** Re-base the view `offset` elements further into the storage. */
    function GetSubView(offset: int): (r: LinearView)
    {
      LinearView(base + offset)
    }

    /** The absolute storage position of the element `offset` elements
        from the base. */
    function At(offset: int): (a: int)
    {
      base + offset
    }
  }
}
