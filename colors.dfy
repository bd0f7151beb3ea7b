/** The three colour channels a tree is drawn with (`float color[3]` in lsystem.cpp and generation_class.cpp). */
module Colors {
  datatype Rgb = Rgb(r: real, g: real, b: real)
}
