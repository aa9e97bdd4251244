/**
 * Where an aspect-fit image lands inside its image view (the UIImageView extension in
 * UIKitExtensions.swift): the scale factor, the scaled size and the letterboxed frame.
 */
module AspectFit {
  import opened Geometry

  datatype Size = Size(width: real, height: real)
  datatype Rect = Rect(origin: Point, size: Size)

  /** The image has a positive size (the view's image is present and not empty). */
  predicate Drawable(image: Size) {
    image.width > 0.0 && image.height > 0.0
  }

  /** `contentScale`: the smaller of the width ratio and the height ratio. */
  function ContentScale(bounds: Size, image: Size): (scale: real)
    requires Drawable(image)
    ensures scale <= bounds.width / image.width && scale <= bounds.height / image.height
    ensures scale == bounds.width / image.width || scale == bounds.height / image.height
  {
    var widthRatio := bounds.width / image.width;
    var heightRatio := bounds.height / image.height;
    if widthRatio < heightRatio then widthRatio else heightRatio
  }

  /**
   * `contentSize`: the image scaled by `contentScale`. It fits the bounds, fills them in at
   * least one dimension and keeps the image's aspect ratio.
   */
  function ContentSize(bounds: Size, image: Size): (size: Size)
    requires Drawable(image)
    ensures size.width <= bounds.width && size.height <= bounds.height
    ensures size.width == bounds.width || size.height == bounds.height
    ensures size.width * image.height == size.height * image.width
  {
    var scale := ContentScale(bounds, image);
    assert image.width * (bounds.width / image.width) == bounds.width;
    assert image.height * (bounds.height / image.height) == bounds.height;
    assert image.width * scale <= bounds.width by {
      assert scale <= bounds.width / image.width;
    }
    assert image.height * scale <= bounds.height by {
      assert scale <= bounds.height / image.height;
    }
    Size(image.width * scale, image.height * scale)
  }

  /**
   * `contentFrame`: the scaled image centred in the bounds. It lies within the bounds, has
   * the content size, and leaves equal slack on both sides of each axis.
   */
  function ContentFrame(bounds: Size, image: Size): (frame: Rect)
    requires Drawable(image)
    ensures frame.size == ContentSize(bounds, image)
    ensures frame.origin.x >= 0.0 && frame.origin.y >= 0.0
    ensures frame.origin.x + frame.size.width <= bounds.width
    ensures frame.origin.y + frame.size.height <= bounds.height
    ensures frame.origin.x == bounds.width - (frame.origin.x + frame.size.width)
    ensures frame.origin.y == bounds.height - (frame.origin.y + frame.size.height)
  {
    var scaled := ContentSize(bounds, image);
    Rect(Point(0.5 * (bounds.width - scaled.width), 0.5 * (bounds.height - scaled.height)), scaled)
  }
}
