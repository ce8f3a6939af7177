/** The viewport: the mutable rectangle of the complex plane shown on screen
 *  (java.awt.geom.Rectangle2D.Double in the program), and its value. */
module Rectangles {

  /** The value of a viewport: lower-left corner (x, y), width and height. */
  datatype Bounds = Bounds(x: real, y: real, width: real, height: real)

  /** The viewport the explorer owns and the generators overwrite in place. */
  class Rectangle {
    var x: real
    var y: real
    var width: real
    var height: real

    /** A new rectangle is all zeros, as `new Rectangle2D.Double()` is. */
    constructor ()
      ensures Value() == Bounds(0.0, 0.0, 0.0, 0.0)
    {
      x, y, width, height := 0.0, 0.0, 0.0, 0.0;
    }

    function Value(): Bounds
      reads this
    {
      Bounds(x, y, width, height)
    }

    /** Overwrites all four fields at once. */
    method SetRect(b: Bounds)
      modifies this
      ensures Value() == b
    {
      x, y, width, height := b.x, b.y, b.width, b.height;
    }
  }
}
