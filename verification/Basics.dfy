/** The two small datatypes every other module shares. */
module Basics {

  datatype Option<+T> = None | Some(value: T)

  /** A value kept once per model family, as the VIDEO and LIVE artifacts and locks are. */
  datatype ModelType = Video | Live

  datatype PerType<T> = PerType(video: T, live: T) {
    function At(t: ModelType): T {
      if t.Video? then video else live
    }

    function With(t: ModelType, x: T): PerType<T> {
      if t.Video? then this.(video := x) else this.(live := x)
    }
  }
}
