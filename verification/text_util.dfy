/** White space, as the program's text routines see it. */
module TextUtil {
  predicate IsSpace(c: char) {
    c == ' ' || '\t' <= c <= '\r'
  }
}
