/** `PosterRenderer.drawImageContain`: scale an image to fit a box without
    cropping, keeping its aspect ratio, and centre it. Exact real
    arithmetic stands for JavaScript's floating point. */
module ImageFit {

  /** The natural size of a loaded image. */
  datatype Dims = Dims(width: real, height: real)

  /** The destination rectangle handed to `drawImage`. */
  datatype Placement = Placement(x: real, y: real, w: real, h: real)

  function MinReal(a: real, b: real): real
  {
    if a <= b then a else b
  }

  function ContainFit(img: Dims, x: real, y: real, w: real, h: real): (p: Placement)
    requires img.width > 0.0 && img.height > 0.0
    // the scaled image is no larger than the box in either direction
    ensures p.w <= w && p.h <= h
    // it fills the box in at least one direction
    ensures p.w == w || p.h == h
    // the aspect ratio is kept
    ensures p.w * img.height == p.h * img.width
    // it is centred: equal margins on opposite sides
    ensures p.x - x == (x + w) - (p.x + p.w)
    ensures p.y - y == (y + h) - (p.y + p.h)
  {
    var scale := MinReal(w / img.width, h / img.height);
    var scaledW := img.width * scale;
    var scaledH := img.height * scale;
    assert img.width * (w / img.width) == w;
    assert img.height * (h / img.height) == h;
    assert scaledW * img.height == scaledH * img.width;
    Placement(x + (w - scaledW) / 2.0, y + (h - scaledH) / 2.0, scaledW, scaledH)
  }

  /** A 300 by 450 image in a 500 by 500 box is drawn 1000/3 by 500, with
      the horizontal margins split evenly. */
  lemma ContainExample()
    ensures ContainFit(Dims(300.0, 450.0), 0.0, 0.0, 500.0, 500.0) == Placement(250.0 / 3.0, 0.0, 1000.0 / 3.0, 500.0)
  {
  }
}
