/**
 * The script generateBody appends after the page content (htmlGenerator.ts, `carouselScript`).
 * Its index logic is modelled in carousel.dfy; here it is only the text the page carries.
 */
module BodyScript {
  const CarouselScript: string :=
    "\n" +
    ("    " + "<script>" + "\n") +
    ("        " + "function " + "initCarousels(" + ")" + " " + "{" + "\n") +
    ("            " + "const " + "carousels " + "=" + " " + "document.querySelectorAll(" + "'" + "." + "carousel-container'" + ")" + ";" + "\n") +
    ("            " + "carousels.forEach(" + "carousel " + "=>" + " " + "{" + "\n") +
    ("                " + "const " + "track " + "=" + " " + "carousel.querySelector(" + "'" + "." + "carousel-track'" + ")" + ";" + "\n") +
    ("                " + "if " + "(" + "!track)" + " " + "return;" + "\n") +
    ("                " + "const " + "slides " + "=" + " " + "Array.from(" + "track.children)" + ";" + "\n") +
    ("                " + "if " + "(" + "slides.length " + "===" + " " + "0)" + " " + "return;" + "\n") +
    ("                " + "const " + "nextButton " + "=" + " " + "carousel.querySelector(" + "'" + "." + "carousel-button.next'" + ")" + ";" + "\n") +
    ("                " + "const " + "prevButton " + "=" + " " + "carousel.querySelector(" + "'" + "." + "carousel-button.prev'" + ")" + ";" + "\n") +
    ("                " + "const " + "dotsNav " + "=" + " " + "carousel.querySelector(" + "'" + "." + "carousel-nav'" + ")" + ";" + "\n") +
    ("                " + "const " + "dots " + "=" + " " + "dotsNav " + "? " + "Array.from(" + "dotsNav.children)" + " " + ":" + " " + "[];" + "\n") +
    ("                " + "let " + "slideWidth " + "=" + " " + "slides[0]." + "getBoundingClientRect(" + ")" + "." + "width;" + "\n") +
    ("                " + "let " + "currentIndex " + "=" + " " + "0;" + "\n") +
    "\n" +
    ("                " + "const " + "updateSlidePosition " + "=" + " " + "(" + "index," + " " + "withAnimation " + "=" + " " + "true)" + " " + "=>" + " " + "{" + "\n") +
    ("                    " + "if " + "(" + "withAnimation)" + " " + "{" + "\n") +
    ("                        " + "track.style.transition " + "=" + " " + "'" + "transform " + "0.5s " + "ease-in-out'" + ";" + "\n") +
    ("                    " + "}" + " " + "else " + "{" + "\n") +
    ("                        " + "track.style.transition " + "=" + " " + "'" + "none'" + ";" + "\n") +
    ("                    " + "}" + "\n") +
    ("                    " + "track.style.transform " + "=" + " " + "'" + "translateX(" + "-" + "'" + " " + "+ " + "slideWidth " + "* " + "index " + "+ " + "'" + "px)" + "'" + ";" + "\n") +
    ("                " + "}" + ";" + "\n") +
    "\n" +
    ("                " + "const " + "moveToSlide " + "=" + " " + "(" + "targetIndex)" + " " + "=>" + " " + "{" + "\n") +
    ("                    " + "updateSlidePosition(" + "targetIndex)" + ";" + "\n") +
    ("                    " + "if " + "(" + "dots.length " + ">" + " " + "0)" + " " + "{" + "\n") +
    ("                        " + "if " + "(" + "dots[currentIndex])" + " " + "dots[currentIndex]." + "classList.remove(" + "'" + "active'" + ")" + ";" + "\n") +
    ("                        " + "if " + "(" + "dots[targetIndex])" + " " + "dots[targetIndex]." + "classList.add(" + "'" + "active'" + ")" + ";" + "\n") +
    ("                    " + "}" + "\n") +
    ("                    " + "currentIndex " + "=" + " " + "targetIndex;" + "\n") +
    ("                " + "}" + ";" + "\n") +
    "\n" +
    ("                " + "if " + "(" + "nextButton)" + " " + "{" + "\n") +
    ("                    " + "nextButton.addEventListener(" + "'" + "click'" + "," + " " + "(" + ")" + " " + "=>" + " " + "{" + "\n") +
    ("                        " + "const " + "newIndex " + "=" + " " + "(" + "currentIndex " + "+ " + "1)" + " " + "% " + "slides.length;" + "\n") +
    ("                        " + "moveToSlide(" + "newIndex)" + ";" + "\n") +
    ("                    " + "}" + ")" + ";" + "\n") +
    ("                " + "}" + "\n") +
    "\n" +
    ("                " + "if " + "(" + "prevButton)" + " " + "{" + "\n") +
    ("                    " + "prevButton.addEventListener(" + "'" + "click'" + "," + " " + "(" + ")" + " " + "=>" + " " + "{" + "\n") +
    ("                        " + "const " + "newIndex " + "=" + " " + "(" + "currentIndex " + "-" + " " + "1 " + "+ " + "slides.length)" + " " + "% " + "slides.length;" + "\n") +
    ("                        " + "moveToSlide(" + "newIndex)" + ";" + "\n") +
    ("                    " + "}" + ")" + ";" + "\n") +
    ("                " + "}" + "\n") +
    "\n" +
    ("                " + "dots.forEach(" + "(" + "dot," + " " + "index)" + " " + "=>" + " " + "{" + "\n") +
    ("                    " + "dot.addEventListener(" + "'" + "click'" + "," + " " + "(" + ")" + " " + "=>" + " " + "{" + "\n") +
    ("                        " + "moveToSlide(" + "index)" + ";" + "\n") +
    ("                    " + "}" + ")" + ";" + "\n") +
    ("                " + "}" + ")" + ";" + "\n") +
    ("                " + "\n") +
    ("                " + "const " + "handleResize " + "=" + " " + "(" + ")" + " " + "=>" + " " + "{" + "\n") +
    ("                    " + "const " + "newSlideWidth " + "=" + " " + "slides[0]." + "getBoundingClientRect(" + ")" + "." + "width;" + "\n") +
    ("                    " + "if " + "(" + "newSlideWidth " + ">" + " " + "0)" + " " + "{" + "\n") +
    ("                       " + "slideWidth " + "=" + " " + "newSlideWidth;" + "\n") +
    ("                       " + "updateSlidePosition(" + "currentIndex," + " " + "false)" + ";" + "\n") +
    ("                    " + "}" + "\n") +
    ("                " + "}" + ";" + "\n") +
    ("                " + "\n") +
    ("                " + "/" + "/" + " " + "Use " + "a " + "timeout " + "to " + "ensure " + "images " + "have " + "loaded " + "and " + "dimensions " + "are " + "correct\n") +
    ("                " + "setTimeout(" + "handleResize," + " " + "100)" + ";" + "\n") +
    ("                " + "window.addEventListener(" + "'" + "resize'" + "," + " " + "handleResize)" + ";" + "\n") +
    ("            " + "}" + ")" + ";" + "\n") +
    ("        " + "}" + "\n") +
    ("        " + "\n") +
    ("        " + "if " + "(" + "document.readyState " + "===" + " " + "'" + "loading'" + ")" + " " + "{" + "\n") +
    ("            " + "document.addEventListener(" + "'" + "DOMContentLoaded'" + "," + " " + "initCarousels)" + ";" + "\n") +
    ("        " + "}" + " " + "else " + "{" + "\n") +
    ("            " + "initCarousels(" + ")" + ";" + "\n") +
    ("        " + "}" + "\n") +
    ("    " + "</" + "script>" + "\n") +
    "    "
}
