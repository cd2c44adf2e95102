/**
 * The activity recommender of ai_service.py (`DepressionSupportRecommender`):
 * a severity tier from the sentiment score and the number of indicators, then
 * a fixed slice of the activity table for that tier, cut to five items.
 */
module Recommender {

  const Physical: seq<string> := [
    "Đi bộ 15-30 phút mỗi ngày trong công viên",
    "Tập yoga hoặc thiền định",
    "Tham gia hoạt động thể thao nhẹ nhàng",
    "Tập thở sâu và thư giãn",
    "Massage và chăm sóc bản thân"
  ]

  const Social: seq<string> := [
    "Gọi điện cho người thân, bạn bè",
    "Tham gia các nhóm hỗ trợ",
    "Tham gia hoạt động tình nguyện",
    "Gặp gỡ bạn bè để trò chuyện",
    "Tham gia các lớp học hoặc câu lạc bộ"
  ]

  const Creative: seq<string> := [
    "Viết nhật ký cảm xúc",
    "Vẽ tranh, tô màu",
    "Nghe nhạc thư giãn",
    "Đọc sách yêu thích",
    "Nấu ăn món mình thích"
  ]

  const Professional: seq<string> := [
    "Tham khảo ý kiến bác sĩ tâm lý",
    "Liên hệ đường dây nóng hỗ trợ tâm lý",
    "Đặt lịch khám với chuyên gia sức khỏe tâm thần",
    "Tham gia liệu pháp nhóm",
    "Tìm hiểu về các phương pháp điều trị"
  ]

  /** A hotline entry of `emergency_resources`. */
  datatype Hotline = Hotline(name: string, number: string, availability: string)

  /** The static structure `get_emergency_resources` returns. */
  datatype EmergencyResources = EmergencyResources(hotlines: seq<Hotline>, centers: seq<string>)

  const Emergency := EmergencyResources(
    [ Hotline("Đường dây nóng Ngày Mai Tươi Sáng", "1800-8440", "24/7, miễn phí"),
      Hotline("Tư vấn tâm lý", "1900-1267", "24/7"),
      Hotline("Tổng đài sức khỏe tâm thần", "19001581", "24/7, miễn phí"),
      Hotline("Trung tâm Can thiệp Khủng hoảng", "0869-105-105", "24/7") ],
    [ "Bệnh viện Tâm thần Trung ương 1",
      "Bệnh viện Tâm thần TP.HCM",
      "Trung tâm Sức khỏe Tâm thần Cộng đồng" ])

  datatype Tier = Mild | Moderate | Severe

  /** The order mild < moderate < severe. */
  function Rank(t: Tier): nat
  {
    match t
    case Mild => 0
    case Moderate => 1
    case Severe => 2
  }

  /** The `level` of `recommend_activities`. */
  function Severity(score: real, indicatorCount: nat): (t: Tier)
    ensures t == Severe <==> score < -0.7 || indicatorCount >= 4
    ensures t == Mild <==> score >= -0.4 && indicatorCount < 2
  {
    if score < -0.7 || indicatorCount >= 4 then Severe
    else if score < -0.4 || indicatorCount >= 2 then Moderate
    else Mild
  }

  /**
   * The five activities a tier ends up with once the list is cut to five:
   * the professional ones for severe, three physical then two social for
   * moderate, the physical ones for mild.
   */
  function TierActivities(t: Tier): seq<string>
  {
    match t
    case Severe => Professional
    case Moderate => Physical[..3] + Social[..2]
    case Mild => Physical
  }

  /**
   * `recommend_activities(sentiment_analysis, depression_indicators)`: extend
   * the list with the tier's slices, then keep the first five. Every tier's
   * first slice already holds at least three items and the first two slices
   * at least five, so the cut always leaves exactly five.
   */
  method RecommendActivities(score: real, indicators: seq<string>) returns (recommendations: seq<string>)
    ensures |recommendations| == 5
    ensures recommendations == TierActivities(Severity(score, |indicators|))
  {
    var all: seq<string> := [];
    var level := Severity(score, |indicators|);
    if level == Severe {
      all := all + Professional;
      all := all + Physical[..2];
      all := all + Creative[..2];
      assert all[..5] == Professional;
    } else if level == Moderate {
      all := all + Physical[..3];
      all := all + Social[..2];
      all := all + Creative[..3];
      assert all[..5] == Physical[..3] + Social[..2];
    } else {
      all := all + Physical;
      all := all + Social;
      all := all + Creative;
      assert all[..5] == Physical;
    }
    recommendations := all[..5];
  }

  /**
   * The tier never drops when the score falls or the indicator list grows.
   */
  lemma SeverityMonotone(score: real, count: nat, lowerScore: real, moreIndicators: nat)
    requires lowerScore <= score && count <= moreIndicators
    ensures Rank(Severity(score, count)) <= Rank(Severity(lowerScore, moreIndicators))
  {
  }
}
