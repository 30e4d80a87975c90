/** The colour classes the views choose between; each value stands for a
    Tailwind gradient or text colour of that hue. */
module Colours {
  datatype Colour = Red | Yellow | Blue | Green | Purple
}
