/**
 * The static part of the generated `<head>`: every CSS rule after the body's
 * `font-family` declaration, identical for every document. It is data only; the one
 * substitution the head generator makes sits just before it.
 */
module Stylesheet {

  /** The text that follows the `font-family` line of the body rule, up to and including `</head>`. */
  const RulesAfterFontFamily: string :=
    ("  " + "background:" + " " + "#FFF0F5;" + "\n") +
    ("  " + "color:" + " " + "#333;" + "\n") +
    ("  " + "overflow-x:" + " " + "hidden;" + "\n") +
    ("}" + "\n") +
    "\n" +
    ("." + "container " + "{" + "\n") +
    ("  " + "width:" + " " + "100%;" + "\n") +
    ("  " + "max-width:" + " " + "1200px;" + "\n") +
    ("  " + "margin:" + " " + "0 " + "auto;" + "\n") +
    ("}" + "\n") +
    "\n" +
    ("/* " + "메인 " + "히어로 " + "섹션 " + "*/" + "\n") +
    ("." + "hero-section " + "{" + "\n") +
    ("  " + "background:" + " " + "linear-gradient(" + "135deg," + " " + "#FFB3D9 " + "0%," + " " + "#FFC0CB " + "50%," + " " + "#FFE4E1 " + "100%)" + ";" + "\n") +
    ("  " + "padding:" + " " + "60px " + "20px;" + "\n") +
    ("  " + "text-align:" + " " + "center;" + "\n") +
    ("  " + "position:" + " " + "relative;" + "\n") +
    ("  " + "overflow:" + " " + "hidden;" + "\n") +
    ("}" + "\n") +
    "\n" +
    ("." + "hero-section:" + ":" + "before " + "{" + "\n") +
    ("  " + "content:" + " " + "\"" + "♡\"" + ";" + "\n") +
    ("  " + "position:" + " " + "absolute;" + "\n") +
    ("  " + "font-size:" + " " + "300px;" + "\n") +
    ("  " + "color:" + " " + "rgba(" + "255," + "255," + "255," + "0.1)" + ";" + "\n") +
    ("  " + "top:" + " " + "-50px;" + "\n") +
    ("  " + "left:" + " " + "-50px;" + "\n") +
    ("}" + "\n") +
    "\n" +
    ("." + "hero-section:" + ":" + "after " + "{" + "\n") +
    ("  " + "content:" + " " + "\"" + "✧\"" + ";" + "\n") +
    ("  " + "position:" + " " + "absolute;" + "\n") +
    ("  " + "font-size:" + " " + "200px;" + "\n") +
    ("  " + "color:" + " " + "rgba(" + "255," + "255," + "255," + "0.15)" + ";" + "\n") +
    ("  " + "bottom:" + " " + "-30px;" + "\n") +
    ("  " + "right:" + " " + "-30px;" + "\n") +
    ("}" + "\n") +
    "\n" +
    ("." + "brand-tag " + "{" + "\n") +
    ("  " + "display:" + " " + "inline-block;" + "\n") +
    ("  " + "background:" + " " + "white;" + "\n") +
    ("  " + "color:" + " " + "#FF69B4;" + "\n") +
    ("  " + "padding:" + " " + "8px " + "20px;" + "\n") +
    ("  " + "border-radius:" + " " + "30px;" + "\n") +
    ("  " + "font-size:" + " " + "14px;" + "\n") +
    ("  " + "font-weight:" + " " + "600;" + "\n") +
    ("  " + "margin-bottom:" + " " + "20px;" + "\n") +
    ("  " + "letter-spacing:" + " " + "2px;" + "\n") +
    ("}" + "\n") +
    "\n" +
    ("." + "main-title " + "{" + "\n") +
    ("  " + "font-family:" + " " + "'" + "Quicksand'" + "," + " " + "sans-serif;" + "\n") +
    ("  " + "font-size:" + " " + "48px;" + "\n") +
    ("  " + "font-weight:" + " " + "700;" + "\n") +
    ("  " + "color:" + " " + "white;" + "\n") +
    ("  " + "margin-bottom:" + " " + "15px;" + "\n") +
    ("  " + "text-shadow:" + " " + "3px " + "3px " + "0px " + "rgba(" + "255," + "105," + "180," + "0.3)" + ";" + "\n") +
    ("  " + "letter-spacing:" + " " + "-1px;" + "\n") +
    ("}" + "\n") +
    "\n" +
    ("." + "sub-title " + "{" + "\n") +
    ("  " + "font-size:" + " " + "18px;" + "\n") +
    ("  " + "color:" + " " + "white;" + "\n") +
    ("  " + "margin-bottom:" + " " + "30px;" + "\n") +
    ("  " + "font-weight:" + " " + "400;" + "\n") +
    ("  " + "opacity:" + " " + "0.95;" + "\n") +
    ("}" + "\n") +
    "\n" +
    ("." + "emoji-deco " + "{" + "\n") +
    ("  " + "font-size:" + " " + "32px;" + "\n") +
    ("  " + "margin:" + " " + "20px " + "0;" + "\n") +
    ("}" + "\n") +
    "\n" +
    ("/* " + "이미지 " + "섹션 " + "*/" + "\n") +
    ("." + "full-image " + "{" + "\n") +
    ("  " + "width:" + " " + "100%;" + "\n") +
    ("  " + "margin-bottom:" + " " + "0;" + "\n") +
    ("  " + "position:" + " " + "relative;" + "\n") +
    ("}" + "\n") +
    "\n" +
    ("." + "full-image " + "img " + "{" + "\n") +
    ("  " + "width:" + " " + "100%;" + "\n") +
    ("  " + "height:" + " " + "auto;" + "\n") +
    ("  " + "display:" + " " + "block;" + "\n") +
    ("}" + "\n") +
    "\n" +
    ("." + "image-with-sticker " + "{" + "\n") +
    ("  " + "position:" + " " + "relative;" + "\n") +
    ("}" + "\n") +
    "\n" +
    ("." + "sticker " + "{" + "\n") +
    ("  " + "position:" + " " + "absolute;" + "\n") +
    ("  " + "background:" + " " + "#FF69B4;" + "\n") +
    ("  " + "color:" + " " + "white;" + "\n") +
    ("  " + "padding:" + " " + "15px " + "25px;" + "\n") +
    ("  " + "border-radius:" + " " + "50%;" + "\n") +
    ("  " + "font-weight:" + " " + "700;" + "\n") +
    ("  " + "font-size:" + " " + "16px;" + "\n") +
    ("  " + "transform:" + " " + "rotate(" + "-15deg)" + ";" + "\n") +
    ("  " + "box-shadow:" + " " + "0 " + "5px " + "15px " + "rgba(" + "0," + "0," + "0," + "0.1)" + ";" + "\n") +
    ("  " + "z-index:" + " " + "10;" + "\n") +
    ("}" + "\n") +
    "\n" +
    ("." + "sticker.top-right " + "{" + "\n") +
    ("  " + "top:" + " " + "30px;" + "\n") +
    ("  " + "right:" + " " + "30px;" + "\n") +
    ("}" + "\n") +
    "\n" +
    ("/* " + "Carousel " + "Section " + "*/" + "\n") +
    ("." + "carousel-container " + "{" + "\n") +
    ("  " + "position:" + " " + "relative;" + "\n") +
    ("  " + "width:" + " " + "100%;" + "\n") +
    ("  " + "margin:" + " " + "0 " + "auto;" + "\n") +
    ("}" + "\n") +
    "\n" +
    ("." + "carousel-track-container " + "{" + "\n") +
    ("  " + "overflow:" + " " + "hidden;" + "\n") +
    ("}" + "\n") +
    "\n" +
    ("." + "carousel-track " + "{" + "\n") +
    ("  " + "display:" + " " + "flex;" + "\n") +
    ("  " + "transition:" + " " + "transform " + "0.5s " + "ease-in-out;" + "\n") +
    ("}" + "\n") +
    "\n" +
    ("." + "carousel-slide " + "{" + "\n") +
    ("  " + "flex:" + " " + "0 " + "0 " + "100%;" + "\n") +
    ("  " + "width:" + " " + "100%;" + "\n") +
    ("  " + "position:" + " " + "relative;" + "\n") +
    ("}" + "\n") +
    "\n" +
    ("." + "carousel-slide " + "img " + "{" + "\n") +
    ("  " + "width:" + " " + "100%;" + "\n") +
    ("  " + "height:" + " " + "auto;" + "\n") +
    ("  " + "display:" + " " + "block;" + "\n") +
    ("}" + "\n") +
    "\n" +
    ("." + "carousel-button " + "{" + "\n") +
    ("  " + "position:" + " " + "absolute;" + "\n") +
    ("  " + "top:" + " " + "50%;" + "\n") +
    ("  " + "transform:" + " " + "translateY(" + "-50%)" + ";" + "\n") +
    ("  " + "background-color:" + " " + "rgba(" + "255," + " " + "255," + " " + "255," + " " + "0.7)" + ";" + "\n") +
    ("  " + "border:" + " " + "none;" + "\n") +
    ("  " + "border-radius:" + " " + "50%;" + "\n") +
    ("  " + "width:" + " " + "40px;" + "\n") +
    ("  " + "height:" + " " + "40px;" + "\n") +
    ("  " + "cursor:" + " " + "pointer;" + "\n") +
    ("  " + "z-index:" + " " + "10;" + "\n") +
    ("  " + "display:" + " " + "flex;" + "\n") +
    ("  " + "align-items:" + " " + "center;" + "\n") +
    ("  " + "justify-content:" + " " + "center;" + "\n") +
    ("  " + "font-size:" + " " + "24px;" + "\n") +
    ("  " + "color:" + " " + "#FF69B4;" + "\n") +
    ("  " + "opacity:" + " " + "0;" + "\n") +
    ("  " + "transition:" + " " + "opacity " + "0.3s " + "ease;" + "\n") +
    ("  " + "-" + "webkit-tap-highlight-color:" + " " + "transparent;" + "\n") +
    ("}" + "\n") +
    "\n" +
    ("." + "carousel-container:" + "hover " + "." + "carousel-button " + "{" + "\n") +
    ("  " + "opacity:" + " " + "1;" + "\n") +
    ("}" + "\n") +
    "\n" +
    ("." + "carousel-button.prev " + "{" + "\n") +
    ("  " + "left:" + " " + "15px;" + "\n") +
    ("}" + "\n") +
    "\n" +
    ("." + "carousel-button.next " + "{" + "\n") +
    ("  " + "right:" + " " + "15px;" + "\n") +
    ("}" + "\n") +
    "\n" +
    ("." + "carousel-nav " + "{" + "\n") +
    ("  " + "position:" + " " + "absolute;" + "\n") +
    ("  " + "bottom:" + " " + "20px;" + "\n") +
    ("  " + "left:" + " " + "50%;" + "\n") +
    ("  " + "transform:" + " " + "translateX(" + "-50%)" + ";" + "\n") +
    ("  " + "display:" + " " + "flex;" + "\n") +
    ("  " + "gap:" + " " + "10px;" + "\n") +
    ("  " + "z-index:" + " " + "10;" + "\n") +
    ("}" + "\n") +
    "\n" +
    ("." + "carousel-dot " + "{" + "\n") +
    ("  " + "width:" + " " + "12px;" + "\n") +
    ("  " + "height:" + " " + "12px;" + "\n") +
    ("  " + "border-radius:" + " " + "50%;" + "\n") +
    ("  " + "background-color:" + " " + "rgba(" + "255," + " " + "255," + " " + "255," + " " + "0.6)" + ";" + "\n") +
    ("  " + "border:" + " " + "2px " + "solid " + "#FFB3D9;" + "\n") +
    ("  " + "cursor:" + " " + "pointer;" + "\n") +
    ("  " + "transition:" + " " + "background-color " + "0.3s " + "ease;" + "\n") +
    ("  " + "padding:" + " " + "0;" + "\n") +
    ("}" + "\n") +
    "\n" +
    ("." + "carousel-dot.active " + "{" + "\n") +
    ("  " + "background-color:" + " " + "#FF69B4;" + "\n") +
    ("}" + "\n") +
    "\n" +
    ("/* " + "캐치프레이즈 " + "섹션 " + "*/" + "\n") +
    ("." + "catch-section " + "{" + "\n") +
    ("  " + "background:" + " " + "white;" + "\n") +
    ("  " + "padding:" + " " + "80px " + "30px;" + "\n") +
    ("  " + "text-align:" + " " + "center;" + "\n") +
    ("  " + "position:" + " " + "relative;" + "\n") +
    ("}" + "\n") +
    "\n" +
    ("." + "catch-bubble " + "{" + "\n") +
    ("  " + "display:" + " " + "inline-block;" + "\n") +
    ("  " + "background:" + " " + "linear-gradient(" + "45deg," + " " + "#FFE0EC," + " " + "#FFF0F5)" + ";" + "\n") +
    ("  " + "padding:" + " " + "40px " + "60px;" + "\n") +
    ("  " + "border-radius:" + " " + "100px;" + "\n") +
    ("  " + "position:" + " " + "relative;" + "\n") +
    ("}" + "\n") +
    "\n" +
    ("." + "catch-bubble:" + ":" + "before " + "{" + "\n") +
    ("  " + "content:" + " " + "\"" + "˚₊‧꒰ა " + "☆ " + "໒꒱ " + "‧₊˚\"" + ";" + "\n") +
    ("  " + "position:" + " " + "absolute;" + "\n") +
    ("  " + "top:" + " " + "-20px;" + "\n") +
    ("  " + "left:" + " " + "50%;" + "\n") +
    ("  " + "transform:" + " " + "translateX(" + "-50%)" + ";" + "\n") +
    ("  " + "color:" + " " + "#FFB3D9;" + "\n") +
    ("  " + "font-size:" + " " + "20px;" + "\n") +
    ("}" + "\n") +
    "\n" +
    ("." + "catch-text " + "{" + "\n") +
    ("  " + "font-size:" + " " + "24px;" + "\n") +
    ("  " + "font-weight:" + " " + "700;" + "\n") +
    ("  " + "color:" + " " + "#FF69B4;" + "\n") +
    ("  " + "line-height:" + " " + "1.8;" + "\n") +
    ("}" + "\n") +
    "\n" +
    ("." + "catch-highlight " + "{" + "\n") +
    ("  " + "background:" + " " + "linear-gradient(" + "180deg," + " " + "transparent " + "60%," + " " + "#FFE0EC " + "60%)" + ";" + "\n") +
    ("  " + "padding:" + " " + "0 " + "5px;" + "\n") +
    ("}" + "\n") +
    "\n" +
    ("/* " + "스토리 " + "카드 " + "섹션 " + "*/" + "\n") +
    ("." + "story-card " + "{" + "\n") +
    ("  " + "background:" + " " + "white;" + "\n") +
    ("  " + "margin:" + " " + "60px " + "20px;" + "\n") +
    ("  " + "padding:" + " " + "60px;" + "\n") +
    ("  " + "border-radius:" + " " + "30px;" + "\n") +
    ("  " + "box-shadow:" + " " + "0 " + "20px " + "40px " + "rgba(" + "255," + "105," + "180," + "0.1)" + ";" + "\n") +
    ("  " + "position:" + " " + "relative;" + "\n") +
    ("  " + "overflow:" + " " + "hidden;" + "\n") +
    ("}" + "\n") +
    "\n" +
    ("." + "story-card:" + ":" + "before " + "{" + "\n") +
    ("  " + "content:" + " " + "\"" + "\"" + ";" + "\n") +
    ("  " + "position:" + " " + "absolute;" + "\n") +
    ("  " + "top:" + " " + "-50px;" + "\n") +
    ("  " + "right:" + " " + "-50px;" + "\n") +
    ("  " + "width:" + " " + "150px;" + "\n") +
    ("  " + "height:" + " " + "150px;" + "\n") +
    ("  " + "background:" + " " + "radial-gradient(" + "circle," + " " + "#FFE0EC," + " " + "transparent)" + ";" + "\n") +
    ("  " + "border-radius:" + " " + "50%;" + "\n") +
    ("}" + "\n") +
    "\n" +
    ("." + "story-badge " + "{" + "\n") +
    ("  " + "display:" + " " + "inline-flex;" + "\n") +
    ("  " + "align-items:" + " " + "center;" + "\n") +
    ("  " + "gap:" + " " + "10px;" + "\n") +
    ("  " + "background:" + " " + "#FF69B4;" + "\n") +
    ("  " + "color:" + " " + "white;" + "\n") +
    ("  " + "padding:" + " " + "10px " + "25px;" + "\n") +
    ("  " + "border-radius:" + " " + "25px;" + "\n") +
    ("  " + "font-size:" + " " + "14px;" + "\n") +
    ("  " + "font-weight:" + " " + "600;" + "\n") +
    ("  " + "margin-bottom:" + " " + "30px;" + "\n") +
    ("}" + "\n") +
    "\n" +
    ("." + "story-main " + "{" + "\n") +
    ("  " + "font-size:" + " " + "20px;" + "\n") +
    ("  " + "line-height:" + " " + "2;" + "\n") +
    ("  " + "color:" + " " + "#666;" + "\n") +
    ("  " + "margin-bottom:" + " " + "30px;" + "\n") +
    ("}" + "\n") +
    "\n" +
    ("." + "story-point " + "{" + "\n") +
    ("  " + "font-size:" + " " + "24px;" + "\n") +
    ("  " + "font-weight:" + " " + "700;" + "\n") +
    ("  " + "color:" + " " + "#FF69B4;" + "\n") +
    ("  " + "text-align:" + " " + "center;" + "\n") +
    ("  " + "padding:" + " " + "30px;" + "\n") +
    ("  " + "background:" + " " + "linear-gradient(" + "45deg," + " " + "#FFF0F5," + " " + "#FFE0EC)" + ";" + "\n") +
    ("  " + "border-radius:" + " " + "20px;" + "\n") +
    ("  " + "margin-top:" + " " + "30px;" + "\n") +
    ("}" + "\n") +
    "\n" +
    ("/* " + "선택 " + "섹션 " + "*/" + "\n") +
    ("." + "choice-section " + "{" + "\n") +
    ("  " + "padding:" + " " + "80px " + "20px;" + "\n") +
    ("  " + "background:" + " " + "linear-gradient(" + "180deg," + " " + "#FFF0F5 " + "0%," + " " + "white " + "100%)" + ";" + "\n") +
    ("  " + "text-align:" + " " + "center;" + "\n") +
    ("}" + "\n") +
    "\n" +
    ("." + "section-title " + "{" + "\n") +
    ("  " + "font-size:" + " " + "36px;" + "\n") +
    ("  " + "font-weight:" + " " + "900;" + "\n") +
    ("  " + "color:" + " " + "#FF69B4;" + "\n") +
    ("  " + "margin-bottom:" + " " + "15px;" + "\n") +
    ("  " + "position:" + " " + "relative;" + "\n") +
    ("  " + "display:" + " " + "inline-block;" + "\n") +
    ("}" + "\n") +
    "\n" +
    ("." + "section-subtitle " + "{" + "\n") +
    ("  " + "font-size:" + " " + "16px;" + "\n") +
    ("  " + "color:" + " " + "#999;" + "\n") +
    ("  " + "margin-bottom:" + " " + "50px;" + "\n") +
    ("}" + "\n") +
    "\n" +
    ("." + "choice-grid " + "{" + "\n") +
    ("  " + "display:" + " " + "grid;" + "\n") +
    ("  " + "grid-template-columns:" + " " + "1fr " + "1fr;" + "\n") +
    ("  " + "gap:" + " " + "30px;" + "\n") +
    ("  " + "max-width:" + " " + "800px;" + "\n") +
    ("  " + "margin:" + " " + "0 " + "auto;" + "\n") +
    ("}" + "\n") +
    "\n" +
    ("." + "choice-card " + "{" + "\n") +
    ("  " + "background:" + " " + "white;" + "\n") +
    ("  " + "border-radius:" + " " + "30px;" + "\n") +
    ("  " + "overflow:" + " " + "hidden;" + "\n") +
    ("  " + "box-shadow:" + " " + "0 " + "10px " + "30px " + "rgba(" + "0," + "0," + "0," + "0.08)" + ";" + "\n") +
    ("  " + "transition:" + " " + "all " + "0.3s " + "ease;" + "\n") +
    ("  " + "position:" + " " + "relative;" + "\n") +
    ("}" + "\n") +
    "\n" +
    ("." + "choice-card:" + "hover " + "{" + "\n") +
    ("  " + "transform:" + " " + "translateY(" + "-10px)" + " " + "scale(" + "1.02)" + ";" + "\n") +
    ("  " + "box-shadow:" + " " + "0 " + "20px " + "40px " + "rgba(" + "255," + "105," + "180," + "0.2)" + ";" + "\n") +
    ("}" + "\n") +
    "\n" +
    ("." + "choice-card " + "img " + "{" + "\n") +
    ("  " + "width:" + " " + "100%;" + "\n") +
    ("  " + "height:" + " " + "300px;" + "\n") +
    ("  " + "object-fit:" + " " + "cover;" + "\n") +
    ("}" + "\n") +
    "\n" +
    ("." + "choice-label " + "{" + "\n") +
    ("  " + "position:" + " " + "absolute;" + "\n") +
    ("  " + "top:" + " " + "20px;" + "\n") +
    ("  " + "left:" + " " + "20px;" + "\n") +
    ("  " + "background:" + " " + "white;" + "\n") +
    ("  " + "padding:" + " " + "10px " + "20px;" + "\n") +
    ("  " + "border-radius:" + " " + "20px;" + "\n") +
    ("  " + "font-weight:" + " " + "700;" + "\n") +
    ("  " + "color:" + " " + "#FF69B4;" + "\n") +
    ("  " + "box-shadow:" + " " + "0 " + "5px " + "15px " + "rgba(" + "0," + "0," + "0," + "0.1)" + ";" + "\n") +
    ("}" + "\n") +
    "\n" +
    ("." + "choice-name " + "{" + "\n") +
    ("  " + "padding:" + " " + "25px;" + "\n") +
    ("  " + "font-size:" + " " + "20px;" + "\n") +
    ("  " + "font-weight:" + " " + "700;" + "\n") +
    ("  " + "color:" + " " + "#333;" + "\n") +
    ("  " + "background:" + " " + "linear-gradient(" + "45deg," + " " + "#FFF0F5," + " " + "white)" + ";" + "\n") +
    ("}" + "\n") +
    "\n" +
    ("/* " + "포인트 " + "섹션 " + "*/" + "\n") +
    ("." + "points-section " + "{" + "\n") +
    ("  " + "background:" + " " + "white;" + "\n") +
    ("  " + "padding:" + " " + "100px " + "20px;" + "\n") +
    ("  " + "position:" + " " + "relative;" + "\n") +
    ("}" + "\n") +
    "\n" +
    ("." + "points-header " + "{" + "\n") +
    ("  " + "text-align:" + " " + "center;" + "\n") +
    ("  " + "margin-bottom:" + " " + "60px;" + "\n") +
    ("}" + "\n") +
    "\n" +
    ("." + "points-grid " + "{" + "\n") +
    ("  " + "display:" + " " + "grid;" + "\n") +
    ("  " + "grid-template-columns:" + " " + "repeat(" + "3," + " " + "1fr)" + ";" + "\n") +
    ("  " + "gap:" + " " + "30px;" + "\n") +
    ("  " + "max-width:" + " " + "1000px;" + "\n") +
    ("  " + "margin:" + " " + "0 " + "auto;" + "\n") +
    ("}" + "\n") +
    "\n" +
    ("." + "point-item " + "{" + "\n") +
    ("  " + "text-align:" + " " + "center;" + "\n") +
    ("  " + "padding:" + " " + "40px " + "20px;" + "\n") +
    ("  " + "background:" + " " + "linear-gradient(" + "145deg," + " " + "#FFF0F5," + " " + "white)" + ";" + "\n") +
    ("  " + "border-radius:" + " " + "30px;" + "\n") +
    ("  " + "transition:" + " " + "all " + "0.3s " + "ease;" + "\n") +
    ("  " + "position:" + " " + "relative;" + "\n") +
    ("  " + "border:" + " " + "2px " + "solid " + "transparent;" + "\n") +
    ("}" + "\n") +
    "\n" +
    ("." + "point-item:" + "hover " + "{" + "\n") +
    ("  " + "border:" + " " + "2px " + "solid " + "#FFB3D9;" + "\n") +
    ("  " + "transform:" + " " + "translateY(" + "-5px)" + ";" + "\n") +
    ("  " + "box-shadow:" + " " + "0 " + "15px " + "30px " + "rgba(" + "255," + "105," + "180," + "0.15)" + ";" + "\n") +
    ("}" + "\n") +
    "\n" +
    ("." + "point-icon " + "{" + "\n") +
    ("  " + "width:" + " " + "80px;" + "\n") +
    ("  " + "height:" + " " + "80px;" + "\n") +
    ("  " + "margin:" + " " + "0 " + "auto " + "20px;" + "\n") +
    ("  " + "background:" + " " + "linear-gradient(" + "135deg," + " " + "#FF69B4," + " " + "#FFB3D9)" + ";" + "\n") +
    ("  " + "border-radius:" + " " + "25px;" + "\n") +
    ("  " + "display:" + " " + "flex;" + "\n") +
    ("  " + "align-items:" + " " + "center;" + "\n") +
    ("  " + "justify-content:" + " " + "center;" + "\n") +
    ("  " + "font-size:" + " " + "36px;" + "\n") +
    ("  " + "color:" + " " + "white;" + "\n") +
    ("  " + "transform:" + " " + "rotate(" + "-5deg)" + ";" + "\n") +
    ("}" + "\n") +
    "\n" +
    ("." + "point-title " + "{" + "\n") +
    ("  " + "font-size:" + " " + "20px;" + "\n") +
    ("  " + "font-weight:" + " " + "700;" + "\n") +
    ("  " + "color:" + " " + "#FF69B4;" + "\n") +
    ("  " + "margin-bottom:" + " " + "10px;" + "\n") +
    ("}" + "\n") +
    "\n" +
    ("." + "point-desc " + "{" + "\n") +
    ("  " + "font-size:" + " " + "14px;" + "\n") +
    ("  " + "color:" + " " + "#888;" + "\n") +
    ("  " + "line-height:" + " " + "1.6;" + "\n") +
    ("}" + "\n") +
    "\n" +
    ("/* " + "디테일 " + "뷰 " + "*/" + "\n") +
    ("." + "detail-section " + "{" + "\n") +
    ("  " + "padding:" + " " + "80px " + "20px;" + "\n") +
    ("  " + "background:" + " " + "#FFF0F5;" + "\n") +
    ("}" + "\n") +
    "\n" +
    ("." + "detail-item " + "{" + "\n") +
    ("  " + "max-width:" + " " + "1000px;" + "\n") +
    ("  " + "margin:" + " " + "0 " + "auto " + "80px;" + "\n") +
    ("  " + "background:" + " " + "white;" + "\n") +
    ("  " + "border-radius:" + " " + "30px;" + "\n") +
    ("  " + "overflow:" + " " + "hidden;" + "\n") +
    ("  " + "box-shadow:" + " " + "0 " + "20px " + "40px " + "rgba(" + "0," + "0," + "0," + "0.08)" + ";" + "\n") +
    ("}" + "\n") +
    "\n" +
    ("." + "detail-content " + "{" + "\n") +
    ("  " + "padding:" + " " + "50px;" + "\n") +
    ("}" + "\n") +
    "\n" +
    ("." + "detail-label " + "{" + "\n") +
    ("  " + "display:" + " " + "inline-block;" + "\n") +
    ("  " + "background:" + " " + "linear-gradient(" + "45deg," + " " + "#FF69B4," + " " + "#FFB3D9)" + ";" + "\n") +
    ("  " + "color:" + " " + "white;" + "\n") +
    ("  " + "padding:" + " " + "8px " + "20px;" + "\n") +
    ("  " + "border-radius:" + " " + "15px;" + "\n") +
    ("  " + "font-size:" + " " + "14px;" + "\n") +
    ("  " + "font-weight:" + " " + "600;" + "\n") +
    ("  " + "margin-bottom:" + " " + "20px;" + "\n") +
    ("}" + "\n") +
    "\n" +
    ("." + "detail-title " + "{" + "\n") +
    ("  " + "font-size:" + " " + "28px;" + "\n") +
    ("  " + "font-weight:" + " " + "700;" + "\n") +
    ("  " + "color:" + " " + "#333;" + "\n") +
    ("  " + "margin-bottom:" + " " + "20px;" + "\n") +
    ("}" + "\n") +
    "\n" +
    ("." + "detail-text " + "{" + "\n") +
    ("  " + "font-size:" + " " + "16px;" + "\n") +
    ("  " + "line-height:" + " " + "1.8;" + "\n") +
    ("  " + "color:" + " " + "#666;" + "\n") +
    ("}" + "\n") +
    "\n" +
    ("/* " + "활용 " + "가이드 " + "*/" + "\n") +
    ("." + "usage-section " + "{" + "\n") +
    ("  " + "padding:" + " " + "100px " + "20px;" + "\n") +
    ("  " + "background:" + " " + "white;" + "\n") +
    ("  " + "text-align:" + " " + "center;" + "\n") +
    ("}" + "\n") +
    "\n" +
    ("." + "usage-grid " + "{" + "\n") +
    ("  " + "display:" + " " + "grid;" + "\n") +
    ("  " + "grid-template-columns:" + " " + "repeat(" + "2," + " " + "1fr)" + ";" + "\n") +
    ("  " + "gap:" + " " + "30px;" + "\n") +
    ("  " + "max-width:" + " " + "900px;" + "\n") +
    ("  " + "margin:" + " " + "60px " + "auto " + "0;" + "\n") +
    ("}" + "\n") +
    "\n" +
    ("." + "usage-item " + "{" + "\n") +
    ("  " + "background:" + " " + "linear-gradient(" + "135deg," + " " + "#FFF0F5," + " " + "white)" + ";" + "\n") +
    ("  " + "border-radius:" + " " + "25px;" + "\n") +
    ("  " + "padding:" + " " + "30px;" + "\n") +
    ("  " + "transition:" + " " + "all " + "0.3s " + "ease;" + "\n") +
    ("  " + "position:" + " " + "relative;" + "\n") +
    ("  " + "overflow:" + " " + "hidden;" + "\n") +
    ("}" + "\n") +
    "\n" +
    ("." + "usage-item:" + ":" + "before " + "{" + "\n") +
    ("  " + "content:" + " " + "\"" + "\"" + ";" + "\n") +
    ("  " + "position:" + " " + "absolute;" + "\n") +
    ("  " + "top:" + " " + "-30px;" + "\n") +
    ("  " + "right:" + " " + "-30px;" + "\n") +
    ("  " + "width:" + " " + "80px;" + "\n") +
    ("  " + "height:" + " " + "80px;" + "\n") +
    ("  " + "background:" + " " + "rgba(" + "255," + "105," + "180," + "0.1)" + ";" + "\n") +
    ("  " + "border-radius:" + " " + "50%;" + "\n") +
    ("}" + "\n") +
    "\n" +
    ("." + "usage-item:" + "hover " + "{" + "\n") +
    ("  " + "transform:" + " " + "scale(" + "1.05)" + ";" + "\n") +
    ("  " + "box-shadow:" + " " + "0 " + "15px " + "30px " + "rgba(" + "255," + "105," + "180," + "0.15)" + ";" + "\n") +
    ("}" + "\n") +
    "\n" +
    ("." + "usage-emoji " + "{" + "\n") +
    ("  " + "font-size:" + " " + "48px;" + "\n") +
    ("  " + "margin-bottom:" + " " + "20px;" + "\n") +
    ("}" + "\n") +
    "\n" +
    ("." + "usage-title " + "{" + "\n") +
    ("  " + "font-size:" + " " + "18px;" + "\n") +
    ("  " + "font-weight:" + " " + "700;" + "\n") +
    ("  " + "color:" + " " + "#FF69B4;" + "\n") +
    ("  " + "margin-bottom:" + " " + "10px;" + "\n") +
    ("}" + "\n") +
    "\n" +
    ("." + "usage-desc " + "{" + "\n") +
    ("  " + "font-size:" + " " + "14px;" + "\n") +
    ("  " + "color:" + " " + "#888;" + "\n") +
    ("  " + "line-height:" + " " + "1.6;" + "\n") +
    ("}" + "\n") +
    "\n" +
    ("/* " + "MD " + "추천 " + "*/" + "\n") +
    ("." + "recommend-section " + "{" + "\n") +
    ("  " + "background:" + " " + "linear-gradient(" + "135deg," + " " + "#FF69B4," + " " + "#FFB3D9)" + ";" + "\n") +
    ("  " + "padding:" + " " + "100px " + "30px;" + "\n") +
    ("  " + "text-align:" + " " + "center;" + "\n") +
    ("  " + "color:" + " " + "white;" + "\n") +
    ("  " + "position:" + " " + "relative;" + "\n") +
    ("  " + "overflow:" + " " + "hidden;" + "\n") +
    ("}" + "\n") +
    "\n" +
    ("." + "recommend-section:" + ":" + "before," + "\n") +
    ("." + "recommend-section:" + ":" + "after " + "{" + "\n") +
    ("  " + "content:" + " " + "\"" + "★\"" + ";" + "\n") +
    ("  " + "position:" + " " + "absolute;" + "\n") +
    ("  " + "font-size:" + " " + "100px;" + "\n") +
    ("  " + "opacity:" + " " + "0.1;" + "\n") +
    ("}" + "\n") +
    "\n" +
    ("." + "recommend-section:" + ":" + "before " + "{" + "\n") +
    ("  " + "top:" + " " + "20px;" + "\n") +
    ("  " + "left:" + " " + "50px;" + "\n") +
    ("}" + "\n") +
    "\n" +
    ("." + "recommend-section:" + ":" + "after " + "{" + "\n") +
    ("  " + "bottom:" + " " + "20px;" + "\n") +
    ("  " + "right:" + " " + "50px;" + "\n") +
    ("}" + "\n") +
    "\n" +
    ("." + "recommend-badge " + "{" + "\n") +
    ("  " + "display:" + " " + "inline-block;" + "\n") +
    ("  " + "background:" + " " + "white;" + "\n") +
    ("  " + "color:" + " " + "#FF69B4;" + "\n") +
    ("  " + "padding:" + " " + "10px " + "25px;" + "\n") +
    ("  " + "border-radius:" + " " + "20px;" + "\n") +
    ("  " + "font-weight:" + " " + "700;" + "\n") +
    ("  " + "margin-bottom:" + " " + "30px;" + "\n") +
    ("  " + "font-size:" + " " + "14px;" + "\n") +
    ("}" + "\n") +
    "\n" +
    ("." + "recommend-text " + "{" + "\n") +
    ("  " + "font-size:" + " " + "24px;" + "\n") +
    ("  " + "line-height:" + " " + "1.8;" + "\n") +
    ("  " + "max-width:" + " " + "700px;" + "\n") +
    ("  " + "margin:" + " " + "0 " + "auto;" + "\n") +
    ("  " + "font-weight:" + " " + "400;" + "\n") +
    ("}" + "\n") +
    "\n" +
    ("." + "recommend-text " + "strong " + "{" + "\n") +
    ("  " + "font-weight:" + " " + "700;" + "\n") +
    ("  " + "font-size:" + " " + "28px;" + "\n") +
    ("  " + "display:" + " " + "block;" + "\n") +
    ("  " + "margin-top:" + " " + "20px;" + "\n") +
    ("}" + "\n") +
    "\n" +
    ("/* " + "Video " + "Testimonial " + "Section " + "*/" + "\n") +
    ("." + "video-testimonial-section " + "{" + "\n") +
    ("  " + "padding:" + " " + "100px " + "20px;" + "\n") +
    ("  " + "background:" + " " + "white;" + "\n") +
    ("  " + "text-align:" + " " + "center;" + "\n") +
    ("}" + "\n") +
    "\n" +
    ("." + "video-wrapper " + "{" + "\n") +
    ("  " + "position:" + " " + "relative;" + "\n") +
    ("  " + "padding-bottom:" + " " + "56.25%;" + " " + "/* " + "16:" + "9 " + "aspect " + "ratio " + "*/" + "\n") +
    ("  " + "height:" + " " + "0;" + "\n") +
    ("  " + "overflow:" + " " + "hidden;" + "\n") +
    ("  " + "max-width:" + " " + "800px;" + "\n") +
    ("  " + "margin:" + " " + "40px " + "auto;" + "\n") +
    ("  " + "border-radius:" + " " + "20px;" + "\n") +
    ("  " + "box-shadow:" + " " + "0 " + "15px " + "30px " + "rgba(" + "0," + "0," + "0," + "0.15)" + ";" + "\n") +
    ("}" + "\n") +
    "\n" +
    ("." + "video-wrapper " + "iframe " + "{" + "\n") +
    ("  " + "position:" + " " + "absolute;" + "\n") +
    ("  " + "top:" + " " + "0;" + "\n") +
    ("  " + "left:" + " " + "0;" + "\n") +
    ("  " + "width:" + " " + "100%;" + "\n") +
    ("  " + "height:" + " " + "100%;" + "\n") +
    ("  " + "border:" + " " + "none;" + "\n") +
    ("}" + "\n") +
    "\n" +
    ("." + "testimonial-quote " + "{" + "\n") +
    ("  " + "font-size:" + " " + "20px;" + "\n") +
    ("  " + "line-height:" + " " + "1.8;" + "\n") +
    ("  " + "color:" + " " + "#666;" + "\n") +
    ("  " + "max-width:" + " " + "700px;" + "\n") +
    ("  " + "margin:" + " " + "40px " + "auto " + "20px;" + "\n") +
    ("  " + "font-style:" + " " + "italic;" + "\n") +
    ("  " + "position:" + " " + "relative;" + "\n") +
    ("  " + "padding:" + " " + "0 " + "40px;" + "\n") +
    ("}" + "\n") +
    "\n" +
    ("." + "testimonial-quote:" + ":" + "before," + "\n") +
    ("." + "testimonial-quote:" + ":" + "after " + "{" + "\n") +
    ("  " + "content:" + " " + "'" + "\"" + "'" + ";" + "\n") +
    ("  " + "font-family:" + " " + "'" + "Quicksand'" + "," + " " + "sans-serif;" + "\n") +
    ("  " + "font-size:" + " " + "48px;" + "\n") +
    ("  " + "color:" + " " + "#FFB3D9;" + "\n") +
    ("  " + "position:" + " " + "absolute;" + "\n") +
    ("  " + "line-height:" + " " + "1;" + "\n") +
    ("}" + "\n") +
    "\n" +
    ("." + "testimonial-quote:" + ":" + "before " + "{" + "\n") +
    ("  " + "top:" + " " + "-10px;" + "\n") +
    ("  " + "left:" + " " + "0;" + "\n") +
    ("}" + "\n") +
    "\n" +
    ("." + "testimonial-quote:" + ":" + "after " + "{" + "\n") +
    ("  " + "bottom:" + " " + "-20px;" + "\n") +
    ("  " + "right:" + " " + "0;" + "\n") +
    ("}" + "\n") +
    "\n" +
    ("." + "testimonial-author " + "{" + "\n") +
    ("  " + "font-size:" + " " + "16px;" + "\n") +
    ("  " + "font-weight:" + " " + "700;" + "\n") +
    ("  " + "color:" + " " + "#FF69B4;" + "\n") +
    ("}" + "\n") +
    "\n" +
    ("/* " + "제품 " + "정보 " + "*/" + "\n") +
    ("." + "info-section " + "{" + "\n") +
    ("  " + "padding:" + " " + "80px " + "20px;" + "\n") +
    ("  " + "background:" + " " + "#FFF0F5;" + "\n") +
    ("}" + "\n") +
    "\n" +
    ("." + "info-card " + "{" + "\n") +
    ("  " + "max-width:" + " " + "900px;" + "\n") +
    ("  " + "margin:" + " " + "0 " + "auto;" + "\n") +
    ("  " + "background:" + " " + "white;" + "\n") +
    ("  " + "border-radius:" + " " + "30px;" + "\n") +
    ("  " + "padding:" + " " + "50px;" + "\n") +
    ("  " + "box-shadow:" + " " + "0 " + "20px " + "40px " + "rgba(" + "0," + "0," + "0," + "0.08)" + ";" + "\n") +
    ("}" + "\n") +
    "\n" +
    ("." + "info-table " + "{" + "\n") +
    ("  " + "width:" + " " + "100%;" + "\n") +
    ("  " + "border-collapse:" + " " + "collapse;" + "\n") +
    ("}" + "\n") +
    "\n" +
    ("." + "info-table " + "tr " + "{" + "\n") +
    ("  " + "border-bottom:" + " " + "1px " + "solid " + "#FFE0EC;" + "\n") +
    ("}" + "\n") +
    "\n" +
    ("." + "info-table " + "tr:" + "last-child " + "{" + "\n") +
    ("  " + "border-bottom:" + " " + "none;" + "\n") +
    ("}" + "\n") +
    "\n" +
    ("." + "info-table " + "td " + "{" + "\n") +
    ("  " + "padding:" + " " + "20px " + "15px;" + "\n") +
    ("  " + "font-size:" + " " + "15px;" + "\n") +
    ("}" + "\n") +
    "\n" +
    ("." + "info-table " + "td:" + "first-child " + "{" + "\n") +
    ("  " + "width:" + " " + "150px;" + "\n") +
    ("  " + "font-weight:" + " " + "700;" + "\n") +
    ("  " + "color:" + " " + "#FF69B4;" + "\n") +
    ("}" + "\n") +
    "\n" +
    ("." + "info-table " + "td:" + "last-child " + "{" + "\n") +
    ("  " + "color:" + " " + "#666;" + "\n") +
    ("}" + "\n") +
    "\n" +
    ("/* " + "주의사항 " + "*/" + "\n") +
    ("." + "notice-section " + "{" + "\n") +
    ("  " + "background:" + " " + "linear-gradient(" + "135deg," + " " + "#FFE0EC," + " " + "#FFF0F5)" + ";" + "\n") +
    ("  " + "padding:" + " " + "60px " + "30px;" + "\n") +
    ("  " + "text-align:" + " " + "center;" + "\n") +
    ("}" + "\n") +
    "\n" +
    ("." + "notice-title " + "{" + "\n") +
    ("  " + "font-size:" + " " + "20px;" + "\n") +
    ("  " + "font-weight:" + " " + "700;" + "\n") +
    ("  " + "color:" + " " + "#FF69B4;" + "\n") +
    ("  " + "margin-bottom:" + " " + "30px;" + "\n") +
    ("}" + "\n") +
    "\n" +
    ("." + "notice-list " + "{" + "\n") +
    ("  " + "max-width:" + " " + "700px;" + "\n") +
    ("  " + "margin:" + " " + "0 " + "auto;" + "\n") +
    ("  " + "text-align:" + " " + "left;" + "\n") +
    ("  " + "list-style:" + " " + "none;" + "\n") +
    ("}" + "\n") +
    "\n" +
    ("." + "notice-list " + "li " + "{" + "\n") +
    ("  " + "position:" + " " + "relative;" + "\n") +
    ("  " + "padding-left:" + " " + "30px;" + "\n") +
    ("  " + "margin-bottom:" + " " + "15px;" + "\n") +
    ("  " + "font-size:" + " " + "14px;" + "\n") +
    ("  " + "color:" + " " + "#888;" + "\n") +
    ("  " + "line-height:" + " " + "1.6;" + "\n") +
    ("}" + "\n") +
    "\n" +
    ("." + "notice-list " + "li:" + ":" + "before " + "{" + "\n") +
    ("  " + "content:" + " " + "\"" + "💝\"" + ";" + "\n") +
    ("  " + "position:" + " " + "absolute;" + "\n") +
    ("  " + "left:" + " " + "0;" + "\n") +
    ("  " + "top:" + " " + "0;" + "\n") +
    ("}" + "\n") +
    "\n" +
    ("/* " + "푸터 " + "*/" + "\n") +
    ("." + "footer-section " + "{" + "\n") +
    ("  " + "background:" + " " + "white;" + "\n") +
    ("  " + "padding:" + " " + "80px " + "20px;" + "\n") +
    ("  " + "text-align:" + " " + "center;" + "\n") +
    ("}" + "\n") +
    "\n" +
    ("." + "footer-logo " + "{" + "\n") +
    ("  " + "font-family:" + " " + "'" + "Quicksand'" + "," + " " + "sans-serif;" + "\n") +
    ("  " + "font-size:" + " " + "36px;" + "\n") +
    ("  " + "font-weight:" + " " + "700;" + "\n") +
    ("  " + "color:" + " " + "#FF69B4;" + "\n") +
    ("  " + "margin-bottom:" + " " + "15px;" + "\n") +
    ("}" + "\n") +
    "\n" +
    ("." + "footer-text " + "{" + "\n") +
    ("  " + "font-size:" + " " + "16px;" + "\n") +
    ("  " + "color:" + " " + "#999;" + "\n") +
    ("  " + "margin-bottom:" + " " + "30px;" + "\n") +
    ("}" + "\n") +
    "\n" +
    ("." + "footer-emoji " + "{" + "\n") +
    ("  " + "font-size:" + " " + "24px;" + "\n") +
    ("}" + "\n") +
    "\n" +
    ("/* " + "반응형 " + "*/" + "\n") +
    ("@media " + "(" + "max-width:" + " " + "768px)" + " " + "{" + "\n") +
    ("  " + "." + "main-title " + "{" + " " + "font-size:" + " " + "32px;" + " " + "}" + "\n") +
    ("  " + "." + "section-title " + "{" + " " + "font-size:" + " " + "28px;" + " " + "}" + "\n") +
    ("  " + "\n") +
    ("  " + "." + "choice-grid," + "\n") +
    ("  " + "." + "points-grid," + "\n") +
    ("  " + "." + "usage-grid " + "{" + "\n") +
    ("    " + "grid-template-columns:" + " " + "1fr;" + "\n") +
    ("  " + "}" + "\n") +
    ("  " + "\n") +
    ("  " + "." + "story-card," + "\n") +
    ("  " + "." + "detail-content," + "\n") +
    ("  " + "." + "info-card " + "{" + "\n") +
    ("    " + "padding:" + " " + "30px " + "20px;" + "\n") +
    ("  " + "}" + "\n") +
    ("  " + "\n") +
    ("  " + "." + "recommend-text " + "{" + "\n") +
    ("    " + "font-size:" + " " + "18px;" + "\n") +
    ("  " + "}" + "\n") +
    "\n" +
    ("  " + "." + "carousel-container:" + "hover " + "." + "carousel-button " + "{" + "\n") +
    ("    " + "opacity:" + " " + "0.6;" + "\n") +
    ("  " + "}" + "\n") +
    ("}" + "\n") +
    ("</" + "style>" + "\n") +
    ("</" + "head>" + "\n") +
    "  "
}
