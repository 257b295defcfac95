/**
 * Stand-ins for the OpenCV objects both windows hold. A capture device and a video
 * writer are opaque library handles; the model keeps only what the windows decide
 * about them: which device was opened, where and at what size a recording goes,
 * how many frames were handed to it, and whether it has been released.
 */
module Media {

  /** A width and a height in pixels. */
  datatype Size = Size(width: int, height: int)

  /** A `cv2.VideoCapture` opened on camera `device`; `open` turns false on `release()`. */
  datatype Capture = Capture(device: int, open: bool) {
    function Released(): Capture {
      this.(open := false)
    }
  }

  /**
   * A `cv2.VideoWriter` writing to `path` at `fps` frames per second with frame size
   * `size`; `frames` counts the frames written, `open` turns false on `release()`.
   */
  datatype Writer = Writer(path: string, fps: nat, size: Size, frames: nat, open: bool) {
    function Released(): Writer {
      this.(open := false)
    }

    /** One more frame handed to `write()`. */
    function Written(): Writer {
      this.(frames := frames + 1)
    }
  }

  /** A writer as `cv2.VideoWriter(path, fourcc, fps, size)` creates it: open, empty. */
  function NewWriter(path: string, fps: nat, size: Size): Writer {
    Writer(path, fps, size, 0, true)
  }
}
