/** The fixed catalogue of used parts (data/usedPartsData.ts). */
module UsedPartsData {
  import opened Types

  const GTX_1660_SUPER: UsedPart :=
    UsedPart("gpu-1660s", "NVIDIA GTX 1660 Super", A, "Used - 1 year", 12000,
      "https://source.unsplash.com/400x300/?graphics-card,nvidia",
      "Excellent condition, fully tested under load. Great for 1080p gaming.")

  const RYZEN_5_3600: UsedPart :=
    UsedPart("cpu-3600", "AMD Ryzen 5 3600", B, "Used - 2 years", 8500,
      "https://source.unsplash.com/400x300/?cpu-processor,amd",
      "Solid 6-core performance, includes stock cooler. Never overclocked.")

  const VENGEANCE_16GB: UsedPart :=
    UsedPart("ram-ddr4-16gb", "Corsair Vengeance 16GB DDR4 Kit", A, "Used - 8 months", 3200,
      "https://source.unsplash.com/400x300/?computer-ram,corsair",
      "3200MHz CL16 dual-channel kit. Perfect working order.")

  const MWE_550W: UsedPart :=
    UsedPart("psu-550w", "Cooler Master MWE 550W PSU", A, "Used - 6 months", 2500,
      "https://source.unsplash.com/400x300/?power-supply-unit",
      "80+ Bronze certified. Reliable power supply with all original cables.")

  const EVO_970_500GB: UsedPart :=
    UsedPart("ssd-970-500gb", "Samsung 970 Evo 500GB NVMe SSD", B, "Used - 1.5 years", 3000,
      "https://source.unsplash.com/400x300/?ssd,samsung",
      "Fast NVMe speeds, healthy drive status with plenty of life left.")

  const RTX_2060: UsedPart :=
    UsedPart("gpu-2060", "NVIDIA RTX 2060", B, "Used - 2 years", 15500,
      "https://source.unsplash.com/400x300/?graphics-card,rtx",
      "Great for 1080p ray tracing and DLSS. Well-maintained.")

  const CORE_I5_10400F: UsedPart :=
    UsedPart("cpu-10400f", "Intel Core i5-10400F", A, "Used - 1 year", 7000,
      "https://source.unsplash.com/400x300/?cpu-processor,intel",
      "Excellent gaming and productivity CPU. Low power consumption.")

  const B450_TOMAHAWK: UsedPart :=
    UsedPart("mobo-b450", "MSI B450 Tomahawk Motherboard", C, "Used - 2.5 years", 5000,
      "https://source.unsplash.com/400x300/?motherboard,msi",
      "AM4 socket, fully functional but has one non-working USB 2.0 port.")

  /** The listed parts, in catalogue order. */
  const USED_PARTS: seq<UsedPart> := [
    GTX_1660_SUPER,
    RYZEN_5_3600,
    VENGEANCE_16GB,
    MWE_550W,
    EVO_970_500GB,
    RTX_2060,
    CORE_I5_10400F,
    B450_TOMAHAWK
  ]
}
