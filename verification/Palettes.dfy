/** Categorical colour tables of the viewer (oma/app/visualization.py:250-542).
    Each table is built by adding (id, rgb) points in order to a discretizable
    colour transfer function in indexed-lookup mode: a colour is found by exact
    id match only, and a later point with an id already present replaces the
    earlier one. */
module Palettes {

  datatype Rgb = Rgb(r: real, g: real, b: real)

  /** One AddRGBPoint call: the x coordinate is the category id. */
  datatype Point = Point(id: int, color: Rgb)

  /** The two categorical presets. */
  datatype Palette = AtlasPalette | MaterialPalette

  /** The ids that occur in a point list. */
  ghost function Ids(points: seq<Point>): set<int> {
    set k | 0 <= k < |points| :: points[k].id
  }

  /** The lookup table the points define, adding them in list order. */
  function Fold(points: seq<Point>): (table: map<int, Rgb>)
    ensures table.Keys == Ids(points)
  {
    if points == [] then map[]
    else
      var last := points[|points| - 1];
      var init := points[..|points| - 1];
      assert Ids(points) == Ids(init) + {last.id} by {
        forall id | id in Ids(points) ensures id in Ids(init) + {last.id} {
          var k :| 0 <= k < |points| && points[k].id == id;
          if k < |points| - 1 { assert init[k] == points[k]; }
        }
        forall id | id in Ids(init) ensures id in Ids(points) {
          var k :| 0 <= k < |init| && init[k].id == id;
          assert points[k] == init[k];
        }
      }
      Fold(init)[last.id := last.color]
  }

  /** The colour an id resolves to is the one of its LAST point. */
  lemma {:induction false} FoldLastWins(points: seq<Point>, k: nat)
    requires k < |points|
    requires forall j :: k < j < |points| ==> points[j].id != points[k].id
    ensures points[k].id in Fold(points) && Fold(points)[points[k].id] == points[k].color
  {
    var n := |points|;
    if k < n - 1 {
      var init := points[..n - 1];
      assert init[k] == points[k];
      forall j | k < j < |init| ensures init[j].id != init[k].id {
        assert init[j] == points[j];
      }
      FoldLastWins(init, k);
    }
  }

  /** Points of get_atlas_ctf (oma/app/visualization.py:260-500), in call order:
      a first point for id 1 (line 260), then one point for each id 1..239
      (lines 262-500). The list is written in blocks of ten ids. */
  const AtlasPoints: seq<Point> :=
    [Point(1, Rgb(0.0, 0.5, 0.0))] +
    AtlasIds1To10 +
    AtlasIds11To20 +
    AtlasIds21To30 +
    AtlasIds31To40 +
    AtlasIds41To50 +
    AtlasIds51To60 +
    AtlasIds61To70 +
    AtlasIds71To80 +
    AtlasIds81To90 +
    AtlasIds91To100 +
    AtlasIds101To110 +
    AtlasIds111To120 +
    AtlasIds121To130 +
    AtlasIds131To140 +
    AtlasIds141To150 +
    AtlasIds151To160 +
    AtlasIds161To170 +
    AtlasIds171To180 +
    AtlasIds181To190 +
    AtlasIds191To200 +
    AtlasIds201To210 +
    AtlasIds211To220 +
    AtlasIds221To230 +
    AtlasIds231To239

  /** Points for ids 1..10 (oma/app/visualization.py:262-271). */
  const AtlasIds1To10: seq<Point> := [
    Point(1, Rgb(1.0, 0.752941, 0.796078)),
    Point(2, Rgb(1.0, 1.0, 0.0)),
    Point(3, Rgb(0.0, 0.0, 1.0)),
    Point(4, Rgb(0.980392, 0.980392, 0.882353)),
    Point(5, Rgb(0.345098, 0.415686, 0.843137)),
    Point(6, Rgb(0.345098, 0.415686, 0.843137)),
    Point(7, Rgb(0.705882, 0.823529, 0.470588)),
    Point(8, Rgb(0.117647, 0.435294, 0.333333)),
    Point(9, Rgb(0.823529, 0.615686, 0.65098)),
    Point(10, Rgb(0.0588235, 0.196078, 1.0))
  ]

  /** Points for ids 11..20 (oma/app/visualization.py:272-281). */
  const AtlasIds11To20: seq<Point> := [
    Point(11, Rgb(0.345098, 0.415686, 0.843137)),
    Point(12, Rgb(0.862745, 0.843137, 0.0784314)),
    Point(13, Rgb(0.384314, 0.6, 0.439216)),
    Point(14, Rgb(0.345098, 0.415686, 0.843137)),
    Point(15, Rgb(0.345098, 0.415686, 0.843137)),
    Point(16, Rgb(1.0, 0.647059, 0.0)),
    Point(17, Rgb(0.647059, 0.0, 1.0)),
    Point(18, Rgb(0.196078, 0.196078, 0.529412)),
    Point(19, Rgb(0.568627, 0.360784, 0.427451)),
    Point(20, Rgb(0.980392, 0.980392, 0.882353))
  ]

  /** Points for ids 21..30 (oma/app/visualization.py:282-291). */
  const AtlasIds21To30: seq<Point> := [
    Point(21, Rgb(0.345098, 0.415686, 0.843137)),
    Point(22, Rgb(0.345098, 0.415686, 0.843137)),
    Point(23, Rgb(0.705882, 0.823529, 0.470588)),
    Point(24, Rgb(0.117647, 0.435294, 0.333333)),
    Point(25, Rgb(0.823529, 0.615686, 0.65098)),
    Point(26, Rgb(0.0588235, 0.196078, 1.0)),
    Point(27, Rgb(0.862745, 0.843137, 0.0784314)),
    Point(28, Rgb(0.384314, 0.6, 0.439216)),
    Point(29, Rgb(0.647059, 0.0, 1.0)),
    Point(30, Rgb(0.529412, 0.803922, 0.921569))
  ]

  /** Points for ids 31..40 (oma/app/visualization.py:292-301). */
  const AtlasIds31To40: seq<Point> := [
    Point(31, Rgb(0.0, 0.423529, 0.439216)),
    Point(32, Rgb(0.0, 0.423529, 0.439216)),
    Point(33, Rgb(0.992157, 0.529412, 0.752941)),
    Point(34, Rgb(0.847059, 0.862745, 0.329412)),
    Point(35, Rgb(0.611765, 0.670588, 0.423529)),
    Point(36, Rgb(1.0, 0.588235, 0.0392157)),
    Point(37, Rgb(1.0, 0.647059, 0.0)),
    Point(38, Rgb(1.0, 0.588235, 0.0392157)),
    Point(39, Rgb(0.388235, 0.415686, 0.0941176)),
    Point(40, Rgb(0.803922, 0.0392157, 0.490196))
  ]

  /** Points for ids 41..50 (oma/app/visualization.py:302-311). */
  const AtlasIds41To50: seq<Point> := [
    Point(41, Rgb(0.490196, 0.54902, 0.705882)),
    Point(42, Rgb(0.862745, 0.882353, 0.27451)),
    Point(43, Rgb(0.490196, 0.54902, 0.705882)),
    Point(44, Rgb(0.847059, 0.862745, 0.329412)),
    Point(45, Rgb(0.611765, 0.670588, 0.423529)),
    Point(46, Rgb(0.921569, 0.247059, 0.623529)),
    Point(47, Rgb(0.121569, 0.686275, 0.282353)),
    Point(48, Rgb(0.839216, 0.105882, 0.588235)),
    Point(49, Rgb(0.862745, 0.152941, 0.172549)),
    Point(50, Rgb(0.192157, 0.372549, 0.698039))
  ]

  /** Points for ids 51..60 (oma/app/visualization.py:312-321). */
  const AtlasIds51To60: seq<Point> := [
    Point(51, Rgb(0.945098, 0.921569, 0.105882)),
    Point(52, Rgb(0.619608, 0.219608, 0.631373)),
    Point(53, Rgb(0.219608, 0.470588, 0.247059)),
    Point(54, Rgb(0.584314, 0.294118, 0.25098)),
    Point(55, Rgb(0.454902, 0.25098, 0.639216)),
    Point(56, Rgb(0.486275, 0.545098, 0.345098)),
    Point(57, Rgb(0.960784, 0.835294, 0.0823529)),
    Point(58, Rgb(0.45098, 0.8, 0.509804)),
    Point(59, Rgb(0.862745, 0.443137, 0.682353)),
    Point(60, Rgb(0.847059, 0.415686, 0.454902))
  ]

  /** Points for ids 61..70 (oma/app/visualization.py:322-331). */
  const AtlasIds61To70: seq<Point> := [
    Point(61, Rgb(0.168627, 0.662745, 0.901961)),
    Point(62, Rgb(0.929412, 0.898039, 0.580392)),
    Point(63, Rgb(0.682353, 0.454902, 0.596078)),
    Point(64, Rgb(0.403922, 0.643137, 0.447059)),
    Point(65, Rgb(0.654902, 0.482353, 0.34902)),
    Point(66, Rgb(0.643137, 0.482353, 0.733333)),
    Point(67, Rgb(0.741176, 0.780392, 0.505882)),
    Point(68, Rgb(0.952941, 0.905882, 0.392157)),
    Point(69, Rgb(0.952941, 0.713725, 0.74902)),
    Point(70, Rgb(0.670588, 0.847059, 0.560784))
  ]

  /** Points for ids 71..80 (oma/app/visualization.py:332-341). */
  const AtlasIds71To80: seq<Point> := [
    Point(71, Rgb(0.952941, 0.945098, 0.521569)),
    Point(72, Rgb(0.87451, 0.635294, 0.839216)),
    Point(73, Rgb(0.576471, 0.823529, 0.760784)),
    Point(74, Rgb(0.847059, 0.745098, 0.517647)),
    Point(75, Rgb(0.686275, 0.690196, 0.866667)),
    Point(76, Rgb(0.92549, 0.960784, 0.768627)),
    Point(77, Rgb(0.945098, 0.847059, 0.933333)),
    Point(78, Rgb(0.921569, 0.247059, 0.623529)),
    Point(79, Rgb(0.121569, 0.686275, 0.282353)),
    Point(80, Rgb(0.839216, 0.105882, 0.588235))
  ]

  /** Points for ids 81..90 (oma/app/visualization.py:342-351). */
  const AtlasIds81To90: seq<Point> := [
    Point(81, Rgb(0.862745, 0.152941, 0.172549)),
    Point(82, Rgb(0.192157, 0.372549, 0.698039)),
    Point(83, Rgb(0.945098, 0.921569, 0.105882)),
    Point(84, Rgb(0.619608, 0.219608, 0.631373)),
    Point(85, Rgb(0.219608, 0.470588, 0.247059)),
    Point(86, Rgb(0.584314, 0.294118, 0.25098)),
    Point(87, Rgb(0.454902, 0.25098, 0.639216)),
    Point(88, Rgb(0.486275, 0.545098, 0.345098)),
    Point(89, Rgb(0.960784, 0.835294, 0.0823529)),
    Point(90, Rgb(0.45098, 0.8, 0.509804))
  ]

  /** Points for ids 91..100 (oma/app/visualization.py:352-361). */
  const AtlasIds91To100: seq<Point> := [
    Point(91, Rgb(0.862745, 0.443137, 0.682353)),
    Point(92, Rgb(0.847059, 0.415686, 0.454902)),
    Point(93, Rgb(0.168627, 0.662745, 0.901961)),
    Point(94, Rgb(0.929412, 0.898039, 0.580392)),
    Point(95, Rgb(0.682353, 0.454902, 0.596078)),
    Point(96, Rgb(0.403922, 0.643137, 0.447059)),
    Point(97, Rgb(0.654902, 0.482353, 0.34902)),
    Point(98, Rgb(0.643137, 0.482353, 0.733333)),
    Point(99, Rgb(0.741176, 0.780392, 0.505882)),
    Point(100, Rgb(0.952941, 0.905882, 0.392157))
  ]

  /** Points for ids 101..110 (oma/app/visualization.py:362-371). */
  const AtlasIds101To110: seq<Point> := [
    Point(101, Rgb(0.952941, 0.713725, 0.74902)),
    Point(102, Rgb(0.670588, 0.847059, 0.560784)),
    Point(103, Rgb(0.952941, 0.945098, 0.521569)),
    Point(104, Rgb(0.87451, 0.635294, 0.839216)),
    Point(105, Rgb(0.576471, 0.823529, 0.760784)),
    Point(106, Rgb(0.847059, 0.745098, 0.517647)),
    Point(107, Rgb(0.686275, 0.690196, 0.866667)),
    Point(108, Rgb(0.92549, 0.960784, 0.768627)),
    Point(109, Rgb(0.945098, 0.847059, 0.933333)),
    Point(110, Rgb(0.392157, 0.784314, 0.392157))
  ]

  /** Points for ids 111..120 (oma/app/visualization.py:372-381). */
  const AtlasIds111To120: seq<Point> := [
    Point(111, Rgb(1.0, 0.0, 0.0)),
    Point(112, Rgb(0.392157, 0.784314, 0.392157)),
    Point(113, Rgb(1.0, 0.0, 0.0)),
    Point(114, Rgb(0.952941, 0.533333, 0.243137)),
    Point(115, Rgb(0.529412, 0.968627, 0.0156863)),
    Point(116, Rgb(0.576471, 0.270588, 0.0705882)),
    Point(117, Rgb(0.0156863, 0.921569, 0.490196)),
    Point(118, Rgb(0.490196, 0.14902, 0.803922)),
    Point(119, Rgb(0.952941, 0.533333, 0.243137)),
    Point(120, Rgb(0.529412, 0.968627, 0.0156863))
  ]

  /** Points for ids 121..130 (oma/app/visualization.py:382-391). */
  const AtlasIds121To130: seq<Point> := [
    Point(121, Rgb(0.576471, 0.270588, 0.0705882)),
    Point(122, Rgb(0.0156863, 0.921569, 0.490196)),
    Point(123, Rgb(0.490196, 0.14902, 0.803922)),
    Point(124, Rgb(0.784314, 0.0980392, 0.54902)),
    Point(125, Rgb(0.784314, 0.0980392, 0.54902)),
    Point(126, Rgb(0.784314, 0.784314, 0.784314)),
    Point(127, Rgb(0.784314, 0.784314, 0.784314)),
    Point(128, Rgb(0.490196, 0.980392, 0.0784314)),
    Point(129, Rgb(0.490196, 0.980392, 0.0784314)),
    Point(130, Rgb(0.392157, 0.705882, 1.0))
  ]

  /** Points for ids 131..140 (oma/app/visualization.py:392-401). */
  const AtlasIds131To140: seq<Point> := [
    Point(131, Rgb(0.392157, 0.705882, 1.0)),
    Point(132, Rgb(0.247059, 0.411765, 0.882353)),
    Point(133, Rgb(0.247059, 0.411765, 0.882353)),
    Point(134, Rgb(1.0, 0.0980392, 0.509804)),
    Point(135, Rgb(1.0, 0.0980392, 0.509804)),
    Point(136, Rgb(0.235294, 0.745098, 0.509804)),
    Point(137, Rgb(0.235294, 0.745098, 0.509804)),
    Point(138, Rgb(0.745098, 0.705882, 0.411765)),
    Point(139, Rgb(0.745098, 0.705882, 0.411765)),
    Point(140, Rgb(1.0, 0.835294, 0.0))
  ]

  /** Points for ids 141..150 (oma/app/visualization.py:402-411). */
  const AtlasIds141To150: seq<Point> := [
    Point(141, Rgb(1.0, 0.835294, 0.0)),
    Point(142, Rgb(0.235294, 0.705882, 0.705882)),
    Point(143, Rgb(0.235294, 0.705882, 0.705882)),
    Point(144, Rgb(0.803922, 0.509804, 0.0)),
    Point(145, Rgb(0.803922, 0.509804, 0.0)),
    Point(146, Rgb(0.686275, 0.764706, 0.862745)),
    Point(147, Rgb(0.686275, 0.764706, 0.862745)),
    Point(148, Rgb(0.882353, 0.666667, 0.411765)),
    Point(149, Rgb(0.882353, 0.666667, 0.411765)),
    Point(150, Rgb(0.901961, 0.509804, 0.509804))
  ]

  /** Points for ids 151..160 (oma/app/visualization.py:412-421). */
  const AtlasIds151To160: seq<Point> := [
    Point(151, Rgb(0.901961, 0.509804, 0.509804)),
    Point(152, Rgb(0.490196, 0.0196078, 0.0980392)),
    Point(153, Rgb(0.0980392, 0.392157, 0.156863)),
    Point(154, Rgb(0.490196, 0.392157, 0.627451)),
    Point(155, Rgb(0.392157, 0.0980392, 0.0)),
    Point(156, Rgb(0.862745, 0.0784314, 0.392157)),
    Point(157, Rgb(0.72549, 0.0588235, 0.0392157)),
    Point(158, Rgb(0.705882, 0.862745, 0.54902)),
    Point(159, Rgb(0.72549, 0.352941, 0.72549)),
    Point(160, Rgb(0.705882, 0.156863, 0.470588))
  ]

  /** Points for ids 161..170 (oma/app/visualization.py:422-431). */
  const AtlasIds161To170: seq<Point> := [
    Point(161, Rgb(0.54902, 0.0784314, 0.54902)),
    Point(162, Rgb(0.0784314, 0.117647, 0.54902)),
    Point(163, Rgb(0.137255, 0.294118, 0.196078)),
    Point(164, Rgb(0.882353, 0.54902, 0.54902)),
    Point(165, Rgb(0.784314, 0.137255, 0.294118)),
    Point(166, Rgb(0.627451, 0.392157, 0.196078)),
    Point(167, Rgb(0.956863, 0.956863, 0.0941176)),
    Point(168, Rgb(0.235294, 0.686275, 0.313725)),
    Point(169, Rgb(0.862745, 0.705882, 0.54902)),
    Point(170, Rgb(0.862745, 0.54902, 0.705882))
  ]

  /** Points for ids 171..180 (oma/app/visualization.py:432-441). */
  const AtlasIds171To180: seq<Point> := [
    Point(171, Rgb(0.862745, 0.235294, 0.0784314)),
    Point(172, Rgb(0.470588, 0.392157, 0.235294)),
    Point(173, Rgb(0.764706, 0.156863, 0.156863)),
    Point(174, Rgb(0.862745, 0.705882, 0.862745)),
    Point(175, Rgb(0.372549, 0.294118, 0.686275)),
    Point(176, Rgb(0.627451, 0.54902, 0.705882)),
    Point(177, Rgb(0.313725, 0.0784314, 0.54902)),
    Point(178, Rgb(0.294118, 0.196078, 0.490196)),
    Point(179, Rgb(0.196078, 0.627451, 0.588235)),
    Point(180, Rgb(0.0784314, 0.705882, 0.54902))
  ]

  /** Points for ids 181..190 (oma/app/visualization.py:442-451). */
  const AtlasIds181To190: seq<Point> := [
    Point(181, Rgb(0.54902, 0.862745, 0.862745)),
    Point(182, Rgb(0.313725, 0.627451, 0.0784314)),
    Point(183, Rgb(0.392157, 0.0, 0.392157)),
    Point(184, Rgb(0.27451, 0.27451, 0.27451)),
    Point(185, Rgb(0.588235, 0.588235, 0.784314)),
    Point(186, Rgb(0.568627, 0.196078, 0.254902)),
    Point(187, Rgb(0.490196, 0.0196078, 0.0980392)),
    Point(188, Rgb(0.0980392, 0.392157, 0.156863)),
    Point(189, Rgb(0.490196, 0.392157, 0.627451)),
    Point(190, Rgb(0.392157, 0.0980392, 0.0))
  ]

  /** Points for ids 191..200 (oma/app/visualization.py:452-461). */
  const AtlasIds191To200: seq<Point> := [
    Point(191, Rgb(0.862745, 0.0784314, 0.392157)),
    Point(192, Rgb(0.72549, 0.0588235, 0.0392157)),
    Point(193, Rgb(0.705882, 0.862745, 0.54902)),
    Point(194, Rgb(0.72549, 0.352941, 0.72549)),
    Point(195, Rgb(0.705882, 0.156863, 0.470588)),
    Point(196, Rgb(0.54902, 0.0784314, 0.54902)),
    Point(197, Rgb(0.0784314, 0.117647, 0.54902)),
    Point(198, Rgb(0.137255, 0.294118, 0.196078)),
    Point(199, Rgb(0.882353, 0.54902, 0.54902)),
    Point(200, Rgb(0.784314, 0.137255, 0.294118))
  ]

  /** Points for ids 201..210 (oma/app/visualization.py:462-471). */
  const AtlasIds201To210: seq<Point> := [
    Point(201, Rgb(0.627451, 0.392157, 0.196078)),
    Point(202, Rgb(0.956863, 0.956863, 0.0941176)),
    Point(203, Rgb(0.235294, 0.686275, 0.313725)),
    Point(204, Rgb(0.862745, 0.705882, 0.54902)),
    Point(205, Rgb(0.862745, 0.54902, 0.705882)),
    Point(206, Rgb(0.862745, 0.235294, 0.0784314)),
    Point(207, Rgb(0.470588, 0.392157, 0.235294)),
    Point(208, Rgb(0.764706, 0.156863, 0.156863)),
    Point(209, Rgb(0.862745, 0.705882, 0.862745)),
    Point(210, Rgb(0.372549, 0.294118, 0.686275))
  ]

  /** Points for ids 211..220 (oma/app/visualization.py:472-481). */
  const AtlasIds211To220: seq<Point> := [
    Point(211, Rgb(0.627451, 0.54902, 0.705882)),
    Point(212, Rgb(0.313725, 0.0784314, 0.54902)),
    Point(213, Rgb(0.294118, 0.196078, 0.490196)),
    Point(214, Rgb(0.196078, 0.627451, 0.588235)),
    Point(215, Rgb(0.0784314, 0.705882, 0.54902)),
    Point(216, Rgb(0.54902, 0.862745, 0.862745)),
    Point(217, Rgb(0.313725, 0.627451, 0.0784314)),
    Point(218, Rgb(0.392157, 0.0, 0.392157)),
    Point(219, Rgb(0.27451, 0.27451, 0.27451)),
    Point(220, Rgb(0.588235, 0.588235, 0.784314))
  ]

  /** Points for ids 221..230 (oma/app/visualization.py:482-491). */
  const AtlasIds221To230: seq<Point> := [
    Point(221, Rgb(0.568627, 0.196078, 0.254902)),
    Point(222, Rgb(0.901961, 0.607843, 0.843137)),
    Point(223, Rgb(0.901961, 0.607843, 0.843137)),
    Point(224, Rgb(0.607843, 0.901961, 1.0)),
    Point(225, Rgb(0.607843, 0.901961, 1.0)),
    Point(226, Rgb(0.380392, 0.443137, 0.619608)),
    Point(227, Rgb(0.25098, 0.482353, 0.576471)),
    Point(228, Rgb(0.25098, 0.482353, 0.576471)),
    Point(229, Rgb(0.137255, 0.764706, 0.137255)),
    Point(230, Rgb(0.235294, 0.560784, 0.32549))
  ]

  /** Points for ids 231..239 (oma/app/visualization.py:492-500). */
  const AtlasIds231To239: seq<Point> := [
    Point(231, Rgb(0.360784, 0.635294, 0.427451)),
    Point(232, Rgb(0.945098, 0.839216, 0.568627)),
    Point(233, Rgb(0.866667, 0.509804, 0.396078)),
    Point(234, Rgb(0.694118, 0.478431, 0.396078)),
    Point(235, Rgb(0.435294, 0.721569, 0.823529)),
    Point(236, Rgb(0.568627, 0.54902, 0.862745)),
    Point(237, Rgb(0.686275, 0.941176, 0.54902)),
    Point(238, Rgb(0.470588, 0.823529, 0.823529)),
    Point(239, Rgb(0.54902, 0.54902, 0.447059))
  ]

  /** Ids from position 1 on equal their positions (position 0 may hold anything). */
  ghost predicate IdsArePositions(points: seq<Point>) {
    forall j :: 1 <= j < |points| ==> points[j].id == j
  }

  /** A block whose ids continue the numbering keeps the property. */
  lemma AppendBlock(points: seq<Point>, block: seq<Point>)
    requires 1 <= |points| && IdsArePositions(points)
    requires forall j :: 0 <= j < |block| ==> block[j].id == |points| + j
    ensures IdsArePositions(points + block)
  {
  }

  lemma AtlasBlocks()
    ensures |AtlasIds1To10| == 10 && forall j :: 0 <= j < |AtlasIds1To10| ==> AtlasIds1To10[j].id == 1 + j
    ensures |AtlasIds11To20| == 10 && forall j :: 0 <= j < |AtlasIds11To20| ==> AtlasIds11To20[j].id == 11 + j
    ensures |AtlasIds21To30| == 10 && forall j :: 0 <= j < |AtlasIds21To30| ==> AtlasIds21To30[j].id == 21 + j
    ensures |AtlasIds31To40| == 10 && forall j :: 0 <= j < |AtlasIds31To40| ==> AtlasIds31To40[j].id == 31 + j
    ensures |AtlasIds41To50| == 10 && forall j :: 0 <= j < |AtlasIds41To50| ==> AtlasIds41To50[j].id == 41 + j
    ensures |AtlasIds51To60| == 10 && forall j :: 0 <= j < |AtlasIds51To60| ==> AtlasIds51To60[j].id == 51 + j
    ensures |AtlasIds61To70| == 10 && forall j :: 0 <= j < |AtlasIds61To70| ==> AtlasIds61To70[j].id == 61 + j
    ensures |AtlasIds71To80| == 10 && forall j :: 0 <= j < |AtlasIds71To80| ==> AtlasIds71To80[j].id == 71 + j
    ensures |AtlasIds81To90| == 10 && forall j :: 0 <= j < |AtlasIds81To90| ==> AtlasIds81To90[j].id == 81 + j
    ensures |AtlasIds91To100| == 10 && forall j :: 0 <= j < |AtlasIds91To100| ==> AtlasIds91To100[j].id == 91 + j
    ensures |AtlasIds101To110| == 10 && forall j :: 0 <= j < |AtlasIds101To110| ==> AtlasIds101To110[j].id == 101 + j
    ensures |AtlasIds111To120| == 10 && forall j :: 0 <= j < |AtlasIds111To120| ==> AtlasIds111To120[j].id == 111 + j
    ensures |AtlasIds121To130| == 10 && forall j :: 0 <= j < |AtlasIds121To130| ==> AtlasIds121To130[j].id == 121 + j
    ensures |AtlasIds131To140| == 10 && forall j :: 0 <= j < |AtlasIds131To140| ==> AtlasIds131To140[j].id == 131 + j
    ensures |AtlasIds141To150| == 10 && forall j :: 0 <= j < |AtlasIds141To150| ==> AtlasIds141To150[j].id == 141 + j
    ensures |AtlasIds151To160| == 10 && forall j :: 0 <= j < |AtlasIds151To160| ==> AtlasIds151To160[j].id == 151 + j
    ensures |AtlasIds161To170| == 10 && forall j :: 0 <= j < |AtlasIds161To170| ==> AtlasIds161To170[j].id == 161 + j
    ensures |AtlasIds171To180| == 10 && forall j :: 0 <= j < |AtlasIds171To180| ==> AtlasIds171To180[j].id == 171 + j
    ensures |AtlasIds181To190| == 10 && forall j :: 0 <= j < |AtlasIds181To190| ==> AtlasIds181To190[j].id == 181 + j
    ensures |AtlasIds191To200| == 10 && forall j :: 0 <= j < |AtlasIds191To200| ==> AtlasIds191To200[j].id == 191 + j
    ensures |AtlasIds201To210| == 10 && forall j :: 0 <= j < |AtlasIds201To210| ==> AtlasIds201To210[j].id == 201 + j
    ensures |AtlasIds211To220| == 10 && forall j :: 0 <= j < |AtlasIds211To220| ==> AtlasIds211To220[j].id == 211 + j
    ensures |AtlasIds221To230| == 10 && forall j :: 0 <= j < |AtlasIds221To230| ==> AtlasIds221To230[j].id == 221 + j
    ensures |AtlasIds231To239| == 9 && forall j :: 0 <= j < |AtlasIds231To239| ==> AtlasIds231To239[j].id == 231 + j
  {
  }

  /** The atlas list holds a first point for id 1 and then the ids 1..239 in order. */
  lemma AtlasLayout()
    ensures |AtlasPoints| == 240 && AtlasPoints[0] == Point(1, Rgb(0.0, 0.5, 0.0))
    ensures IdsArePositions(AtlasPoints)
  {
    AtlasBlocks();
    var pre := [Point(1, Rgb(0.0, 0.5, 0.0))];
    AppendBlock(pre, AtlasIds1To10); pre := pre + AtlasIds1To10;
    AppendBlock(pre, AtlasIds11To20); pre := pre + AtlasIds11To20;
    AppendBlock(pre, AtlasIds21To30); pre := pre + AtlasIds21To30;
    AppendBlock(pre, AtlasIds31To40); pre := pre + AtlasIds31To40;
    AppendBlock(pre, AtlasIds41To50); pre := pre + AtlasIds41To50;
    AppendBlock(pre, AtlasIds51To60); pre := pre + AtlasIds51To60;
    AppendBlock(pre, AtlasIds61To70); pre := pre + AtlasIds61To70;
    AppendBlock(pre, AtlasIds71To80); pre := pre + AtlasIds71To80;
    AppendBlock(pre, AtlasIds81To90); pre := pre + AtlasIds81To90;
    AppendBlock(pre, AtlasIds91To100); pre := pre + AtlasIds91To100;
    AppendBlock(pre, AtlasIds101To110); pre := pre + AtlasIds101To110;
    AppendBlock(pre, AtlasIds111To120); pre := pre + AtlasIds111To120;
    AppendBlock(pre, AtlasIds121To130); pre := pre + AtlasIds121To130;
    AppendBlock(pre, AtlasIds131To140); pre := pre + AtlasIds131To140;
    AppendBlock(pre, AtlasIds141To150); pre := pre + AtlasIds141To150;
    AppendBlock(pre, AtlasIds151To160); pre := pre + AtlasIds151To160;
    AppendBlock(pre, AtlasIds161To170); pre := pre + AtlasIds161To170;
    AppendBlock(pre, AtlasIds171To180); pre := pre + AtlasIds171To180;
    AppendBlock(pre, AtlasIds181To190); pre := pre + AtlasIds181To190;
    AppendBlock(pre, AtlasIds191To200); pre := pre + AtlasIds191To200;
    AppendBlock(pre, AtlasIds201To210); pre := pre + AtlasIds201To210;
    AppendBlock(pre, AtlasIds211To220); pre := pre + AtlasIds211To220;
    AppendBlock(pre, AtlasIds221To230); pre := pre + AtlasIds221To230;
    AppendBlock(pre, AtlasIds231To239); pre := pre + AtlasIds231To239;
    assert pre == AtlasPoints;
  }

  /** In a list laid out like the atlas list, every id from 1 on resolves to
      the point at its own position; nothing else has a colour. */
  lemma PositionalTable(points: seq<Point>)
    requires 1 <= |points| && IdsArePositions(points)
    ensures forall id :: id in Fold(points) <==> id == points[0].id || 1 <= id < |points|
    ensures forall id :: 1 <= id < |points| ==> Fold(points)[id] == points[id].color
  {
    forall id | 1 <= id < |points| ensures id in Fold(points) && Fold(points)[id] == points[id].color {
      FoldLastWins(points, id);
    }
    forall id | id in Fold(points) ensures id == points[0].id || 1 <= id < |points| {
      assert id in Ids(points);
    }
    assert points[0].id in Ids(points);
  }

  /** The atlas table maps exactly the ids 1..239, each to the colour of the
      point at its position: id 1 takes the colour of its second point
      (line 262), not the first (line 260); id 5 is the colour of line 266.
      Every id lies below the table's SetNumberOfValues (line 502). */
  lemma AtlasTableFacts()
    ensures forall id :: id in Table(AtlasPalette) <==> 1 <= id <= 239
    ensures forall id :: 1 <= id <= 239 ==> Table(AtlasPalette)[id] == AtlasPoints[id].color
    ensures Table(AtlasPalette)[1] == Rgb(1.0, 0.752941, 0.796078)
    ensures Table(AtlasPalette)[1] != AtlasPoints[0].color
    ensures Table(AtlasPalette)[5] == Rgb(0.345098, 0.415686, 0.843137)
    ensures forall id :: id in Table(AtlasPalette) ==> id < AtlasNumberOfValues
  {
    AtlasLayout();
    PositionalTable(AtlasPoints);
    assert AtlasPoints[1] == AtlasIds1To10[0];
    assert AtlasPoints[5] == AtlasIds1To10[4];
  }

  /** SetNumberOfValues of the atlas table (oma/app/visualization.py:502). */
  const AtlasNumberOfValues := 241

  /** Points of get_material_ctf (oma/app/visualization.py:528-534), in call order. */
  const MaterialPoints: seq<Point> := [
    Point(1, Rgb(0.0, 0.5, 0.0)),
    Point(2, Rgb(1.0, 0.5, 0.0)),
    Point(3, Rgb(1.0, 0.752941, 0.796078)),
    Point(4, Rgb(1.0, 1.0, 0.0)),
    Point(5, Rgb(0.501961, 0.501961, 0.501961)),
    Point(6, Rgb(0.0, 0.0, 1.0)),
    Point(7, Rgb(1.0, 1.0, 1.0))
  ]

  /** SetNumberOfValues of the material table (oma/app/visualization.py:536). */
  const MaterialNumberOfValues := 7

  /** A list whose ids are 1, 2, ... in order maps each id to its one point. */
  lemma ConsecutiveTable(points: seq<Point>)
    requires forall j :: 0 <= j < |points| ==> points[j].id == j + 1
    ensures forall id :: id in Fold(points) <==> 1 <= id <= |points|
    ensures forall id :: 1 <= id <= |points| ==> Fold(points)[id] == points[id - 1].color
  {
    forall id | 1 <= id <= |points| ensures id in Fold(points) && Fold(points)[id] == points[id - 1].color {
      FoldLastWins(points, id - 1);
    }
    forall id | id in Fold(points) ensures 1 <= id <= |points| {
      assert id in Ids(points);
    }
  }

  /** The material table maps exactly the ids 1..7, as many as its
      SetNumberOfValues, each to the colour of its one point (lines 528-534). */
  lemma MaterialTableFacts()
    ensures forall id :: id in Table(MaterialPalette) <==> 1 <= id <= MaterialNumberOfValues
    ensures forall id :: 1 <= id <= 7 ==> Table(MaterialPalette)[id] == MaterialPoints[id - 1].color
  {
    ConsecutiveTable(MaterialPoints);
  }

  function PointsOf(p: Palette): seq<Point> {
    match p
    case AtlasPalette => AtlasPoints
    case MaterialPalette => MaterialPoints
  }

  /** The exact-match lookup table a categorical preset binds. */
  function Table(p: Palette): map<int, Rgb> {
    Fold(PointsOf(p))
  }
}
