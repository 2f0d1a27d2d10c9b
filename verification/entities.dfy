/** The records the backend stores, with the field shapes the pages actually read and write. */
module Entities {
  import opened Common

  datatype Slide = Slide(id: int, imageUrl: string, titleEn: string, titleTa: string,
                         descriptionEn: string, descriptionTa: string, link: string)

  datatype Loan = Loan(id: int, icon: string, titleEn: string, titleTa: string,
                       descriptionEn: string, descriptionTa: string, rate: string,
                       featuresEn: seq<string>, featuresTa: seq<string>, image: string,
                       createdAt: string, updatedAt: string)

  /** The shared type declares `speed` numeric; the form reads, selects and sends it as a string. */
  datatype Announcement = Announcement(id: int, textEn: string, textTa: string, speed: string)

  /** The fields the video form and page use (the shared type declares other ones). */
  datatype Video = Video(id: int, titleEn: string, titleTa: string, videoId: string)

  /** One entry of the before-header contact strip. */
  datatype Contact = Contact(kind: string, value: string, display: string, href: string, icon: string)

  /** `string | File`: a stored path, or a file picked in the browser and not yet uploaded. */
  datatype ImageSrc = Path(path: string) | Picked(file: FileRef)

  datatype Logo = Logo(src: Option<ImageSrc>, altTamil: Option<string>, altEnglish: Option<string>)

  datatype TamilEnglish = TamilEnglish(tamil: Option<string>, english: Option<string>)

  datatype YearsImage = YearsImage(src: Option<ImageSrc>, alt: Option<string>)

  /** The before-header draft. Every key can be absent, and so can every key of the nested
      objects, because the draft holds whatever object was last stored in it. */
  datatype BeforeHeaderData = BeforeHeaderData(
    id: Option<string>,
    logo: Option<Logo>,
    title: Option<TamilEnglish>,
    subtitle: Option<TamilEnglish>,
    yearsImage: Option<YearsImage>,
    contacts: Option<seq<Contact>>)
}
