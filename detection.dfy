/** The detection record the object-detection model hands to the drawing utilities. */
module Detections {

  /** A bounding box `[x, y, width, height]` in the pixel coordinates of the source image
      or video frame; (x, y) is the top-left corner. */
  datatype Box = Box(x: real, y: real, width: real, height: real)

  /** One predicted object: its box, its class name (the source's `class` field, a
      reserved word here) and the model's confidence score, nominally in [0, 1]. */
  datatype Detection = Detection(bbox: Box, className: string, score: real)
}
