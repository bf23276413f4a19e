/** How a generic flow node is drawn: its icon, colour and type badge are
    chosen by testing the lower-cased node name for key words, one rule after
    another, the first rule that matches deciding. */
module NodeKinds {
  import opened Strings

  /** The categories the rules distinguish, in the order they are tried. */
  datatype Kind = SftpCollector | Fdc | Asn1Decoder | AsciiDecoder | Validation | Enrichment
                | Encoder | DiameterInterface | Backup | Generic

  datatype Icon = Database | CheckCircle | Activity | FileText | Shield | Plus | Code | Globe | Archive | Settings

  /** The category of a node name: the first rule whose word the lower-cased name contains. */
  function KindOf(nodeName: string): Kind {
    KindOfLower(ToLower(nodeName))
  }

  /** The rules, tried in order on a name already lower-cased. */
  function KindOfLower(name: string): Kind {
    if Contains(name, "sftp") || Contains(name, "collector") then SftpCollector
    else if Contains(name, "fdc") then Fdc
    else if Contains(name, "asn1") || Contains(name, "decoder") then Asn1Decoder
    else if Contains(name, "ascii") then AsciiDecoder
    else if Contains(name, "validation") then Validation
    else if Contains(name, "enrichment") then Enrichment
    else if Contains(name, "encoder") then Encoder
    else if Contains(name, "diameter") || Contains(name, "interface") then DiameterInterface
    else if Contains(name, "backup") then Backup
    else Generic
  }

  function IconOf(k: Kind): Icon {
    match k
    case SftpCollector => Database
    case Fdc => CheckCircle
    case Asn1Decoder => Activity
    case AsciiDecoder => FileText
    case Validation => Shield
    case Enrichment => Plus
    case Encoder => Code
    case DiameterInterface => Globe
    case Backup => Archive
    case Generic => Settings
  }

  function ColorOf(k: Kind): string {
    match k
    case SftpCollector => "bg-blue-500"
    case Fdc => "bg-green-500"
    case Asn1Decoder => "bg-purple-500"
    case AsciiDecoder => "bg-yellow-500"
    case Validation => "bg-red-500"
    case Enrichment => "bg-orange-500"
    case Encoder => "bg-indigo-500"
    case DiameterInterface => "bg-teal-500"
    case Backup => "bg-gray-500"
    case Generic => "bg-slate-500"
  }

  function BadgeOf(k: Kind): string {
    match k
    case SftpCollector => "SFTP Collector"
    case Fdc => "FDC"
    case Asn1Decoder => "ASN.1 Decoder"
    case AsciiDecoder => "ASCII Decoder"
    case Validation => "Validation"
    case Enrichment => "Enrichment"
    case Encoder => "Encoder"
    case DiameterInterface => "Diameter Interface"
    case Backup => "Backup"
    case Generic => "Generic Node"
  }

  /** `getNodeIcon` */
  function GetNodeIcon(nodeName: string): (r: Icon)
    ensures r == IconOf(KindOf(nodeName))
  {
    var name := ToLower(nodeName);
    if Contains(name, "sftp") || Contains(name, "collector") then Database
    else if Contains(name, "fdc") then CheckCircle
    else if Contains(name, "asn1") || Contains(name, "decoder") then Activity
    else if Contains(name, "ascii") then FileText
    else if Contains(name, "validation") then Shield
    else if Contains(name, "enrichment") then Plus
    else if Contains(name, "encoder") then Code
    else if Contains(name, "diameter") || Contains(name, "interface") then Globe
    else if Contains(name, "backup") then Archive
    else Settings
  }

  /** `getNodeColor` */
  function GetNodeColor(nodeName: string): (r: string)
    ensures r == ColorOf(KindOf(nodeName))
  {
    var name := ToLower(nodeName);
    if Contains(name, "sftp") || Contains(name, "collector") then "bg-blue-500"
    else if Contains(name, "fdc") then "bg-green-500"
    else if Contains(name, "asn1") || Contains(name, "decoder") then "bg-purple-500"
    else if Contains(name, "ascii") then "bg-yellow-500"
    else if Contains(name, "validation") then "bg-red-500"
    else if Contains(name, "enrichment") then "bg-orange-500"
    else if Contains(name, "encoder") then "bg-indigo-500"
    else if Contains(name, "diameter") || Contains(name, "interface") then "bg-teal-500"
    else if Contains(name, "backup") then "bg-gray-500"
    else "bg-slate-500"
  }

  /** `getNodeTypeBadge` */
  function GetNodeTypeBadge(nodeName: string): (r: string)
    ensures r == BadgeOf(KindOf(nodeName))
  {
    var name := ToLower(nodeName);
    if Contains(name, "sftp") || Contains(name, "collector") then "SFTP Collector"
    else if Contains(name, "fdc") then "FDC"
    else if Contains(name, "asn1") || Contains(name, "decoder") then "ASN.1 Decoder"
    else if Contains(name, "ascii") then "ASCII Decoder"
    else if Contains(name, "validation") then "Validation"
    else if Contains(name, "enrichment") then "Enrichment"
    else if Contains(name, "encoder") then "Encoder"
    else if Contains(name, "diameter") || Contains(name, "interface") then "Diameter Interface"
    else if Contains(name, "backup") then "Backup"
    else "Generic Node"
  }

  /** The three functions test the same words in the same order, so a node's
      icon, colour and badge always belong to one category. */
  lemma OneCategory(nodeName: string)
    ensures GetNodeIcon(nodeName) == IconOf(KindOf(nodeName))
    ensures GetNodeColor(nodeName) == ColorOf(KindOf(nodeName))
    ensures GetNodeTypeBadge(nodeName) == BadgeOf(KindOf(nodeName))
  {
  }

  /** Different categories look different: icon, colour and badge each tell the category. */
  lemma CategoriesDistinct(k1: Kind, k2: Kind)
    requires k1 != k2
    ensures IconOf(k1) != IconOf(k2) && ColorOf(k1) != ColorOf(k2) && BadgeOf(k1) != BadgeOf(k2)
  {
  }

  /** The name is lower-cased first, so the classification ignores case. */
  lemma KindIgnoresCase(nodeName: string)
    ensures KindOf(ToLower(nodeName)) == KindOf(nodeName)
    ensures GetNodeTypeBadge(ToLower(nodeName)) == GetNodeTypeBadge(nodeName)
  {
    ToLowerIdempotent(nodeName);
  }

  /** A name containing "decoder" never gets the ASCII category, even when it
      contains "ascii": the ASN.1 rule is tried first. */
  lemma DecoderBeforeAscii(nodeName: string)
    requires Contains(ToLower(nodeName), "decoder")
    ensures KindOf(nodeName) != AsciiDecoder
    ensures KindOf(nodeName) in {SftpCollector, Fdc, Asn1Decoder}
  {
  }

  /** The ASCII category is given exactly to names with "ascii" and none of the earlier words. */
  lemma AsciiCategory(nodeName: string)
    ensures KindOf(nodeName) == AsciiDecoder <==>
      var name := ToLower(nodeName);
      Contains(name, "ascii") && !Contains(name, "sftp") && !Contains(name, "collector")
      && !Contains(name, "fdc") && !Contains(name, "asn1") && !Contains(name, "decoder")
  {
  }

  /** A name with none of the words gets the defaults. */
  lemma DefaultCategory(nodeName: string)
    ensures KindOf(nodeName) == Generic <==>
      var name := ToLower(nodeName);
      !Contains(name, "sftp") && !Contains(name, "collector") && !Contains(name, "fdc")
      && !Contains(name, "asn1") && !Contains(name, "decoder") && !Contains(name, "ascii")
      && !Contains(name, "validation") && !Contains(name, "enrichment") && !Contains(name, "encoder")
      && !Contains(name, "diameter") && !Contains(name, "interface") && !Contains(name, "backup")
    ensures KindOf(nodeName) == Generic ==>
      GetNodeIcon(nodeName) == Settings && GetNodeColor(nodeName) == "bg-slate-500"
      && GetNodeTypeBadge(nodeName) == "Generic Node"
  {
  }
}
