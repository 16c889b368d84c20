/** A point of the site plan, in metres. */
module Points {
  datatype Point = Point(x: real, y: real)
}
