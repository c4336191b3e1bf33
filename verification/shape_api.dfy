/** The query API's view of a placed shape: the five getters of the `Shape`
    interface, and the arguments `equals` can be given. */
module ShapeApi {
  import opened JavaLang

  /** A `Shape` as its getters report it. */
  datatype ShapeView = ShapeView(name: Option<string>, x: int32, y: int32, width: int32, height: int32)

  /** An argument of `equals(Object)`: some `Shape`, or any object that is
      not one. */
  datatype JObject = AShape(view: ShapeView) | NotAShape
}
